/** The behavioural tests of `CuentaTest`, one method each: the fixture the JUnit
    lifecycle builds before every test, the calls the test makes, and what it asserts,
    stated as the method's postcondition. */
module CuentaTest {
  import opened Exceptions
  import opened Models
  import Decimal
  import Totales

  /** `java.util.Optional`. */
  datatype Option<T> = None | Some(value: T)

  /** `cuentas.stream().filter(c -> c.getPersona().equals(persona)).findFirst()`:
      the position of the first listed account owned by `persona`, if there is one. */
  function PrimeraDePersona(cs: seq<Cuenta>, persona: string): (r: Option<nat>)
    reads cs
    ensures r.Some? ==> r.value < |cs| && cs[r.value].persona == persona
    ensures r.Some? ==> forall j :: 0 <= j < r.value ==> cs[j].persona != persona
    ensures r.None? <==> forall j :: 0 <= j < |cs| ==> cs[j].persona != persona
    decreases |cs|
  {
    if cs == [] then None
    else if cs[0].persona == persona then Some(0)
    else match PrimeraDePersona(cs[1..], persona)
      case None => None
      case Some(i) => Some(i + 1)
  }

  /** `cuentas.stream().anyMatch(c -> c.getPersona().equals(persona))`. */
  function AlgunaDePersona(cs: seq<Cuenta>, persona: string): (b: bool)
    reads cs
    ensures b <==> exists j :: 0 <= j < |cs| && cs[j].persona == persona
  {
    PrimeraDePersona(cs, persona).Some?
  }

  /** The two lookups of `testRelacionBancoCuentas` on a list holding an account of
      "Jhon Doe" followed by one of "Andres": the first account of "Andres" is the
      second entry, and some account belongs to "Jhon Doe". */
  lemma BusquedaEntreDos(cuenta1: Cuenta, cuenta2: Cuenta)
    requires cuenta1.persona == "Jhon Doe" && cuenta2.persona == "Andres"
    ensures PrimeraDePersona([cuenta1, cuenta2], "Andres") == Some(1)
    ensures AlgunaDePersona([cuenta1, cuenta2], "Jhon Doe")
  {
  }

  /** A transfer between the two accounts of a two-account list, in either
      direction, changes the list's total by nothing. */
  lemma ConservaEntreDos(cuenta1: Cuenta, cuenta2: Cuenta, monto: real)
    ensures Totales.Neto([cuenta1, cuenta2], cuenta2, cuenta1, monto) == 0.0
    ensures Totales.Neto([cuenta1, cuenta2], cuenta1, cuenta2, monto) == 0.0
  {
    Totales.TransferenciaConserva([cuenta1, cuenta2], cuenta2, cuenta1, monto);
    Totales.TransferenciaConserva([cuenta1, cuenta2], cuenta1, cuenta2, monto);
  }

  /** The test class. JUnit creates an instance per test and runs `initMetodoTest`
      (`@BeforeEach`) on it before the test itself. */
  class CuentaTest {
    var cuenta: Cuenta?

    constructor ()
      ensures cuenta == null
    {
      cuenta := null;
    }

    /** `@BeforeEach initMetodoTest`: a fresh account of "Andres" holding 1000.12345. */
    method InitMetodoTest()
      modifies this
      ensures cuenta != null && fresh(cuenta)
      ensures cuenta.persona == "Andres" && cuenta.saldo == 1000.12345 && cuenta.banco == null
      ensures Inicializada()
    {
      cuenta := new Cuenta("Andres", 1000.12345);
    }

    /** The state `initMetodoTest` leaves, in which every test starts. */
    ghost predicate Inicializada()
      reads this, cuenta
    {
      cuenta != null && cuenta.persona == "Andres" && cuenta.saldo == 1000.12345
    }

    /** `testNombreCuenta`: the owner is exactly the one given at construction. */
    method TestNombreCuenta() returns (actual: string)
      requires Inicializada()
      ensures actual == "Andres"
    {
      actual := cuenta.persona;
    }

    /** `testSaldoCuenta`: the balance is exactly the one given at construction, not
        negative and strictly positive. */
    method TestSaldoCuenta() returns (saldo: real)
      requires Inicializada()
      ensures saldo == 1000.12345
      ensures !(saldo < 0.0) && saldo > 0.0
    {
      saldo := cuenta.saldo;
    }

    /** `testReferenciaCuenta`: two accounts built separately from the same owner and
        balance are different objects and yet equal. */
    method TestReferenciaCuenta() returns (iguales: bool, mismoObjeto: bool)
      modifies this
      ensures iguales && !mismoObjeto
    {
      cuenta := new Cuenta("John Doe", 8900.9997);
      var cuenta2 := new Cuenta("John Doe", 8900.9997);
      iguales := cuenta2.Equals(cuenta);
      mismoObjeto := cuenta2 == cuenta;
    }

    /** `testDebitoCuenta`: debiting 100 from 1000.12345 succeeds and leaves exactly
        900.12345, whose `intValue()` is 900. */
    method TestDebitoCuenta() returns (r: Outcome, saldo: real, entero: int)
      requires Inicializada()
      modifies cuenta
      ensures r == Pass && saldo == 900.12345 && entero == 900
    {
      r := cuenta.Debito(100.0);
      saldo := cuenta.saldo;
      entero := Decimal.IntValue(saldo);
    }

    /** `testCreditoCuenta`: crediting 100 to 1000.12345 leaves exactly 1100.12345,
        whose `intValue()` is 1100. */
    method TestCreditoCuenta() returns (saldo: real, entero: int)
      requires Inicializada()
      modifies cuenta
      ensures saldo == 1100.12345 && entero == 1100
    {
      cuenta.Credito(100.0);
      saldo := cuenta.saldo;
      entero := Decimal.IntValue(saldo);
    }

    /** `testDineroInsuficienteExceptionCuenta`: debiting 1500 from 1000.12345 throws
        `DineroInsuficienteException` with the message "Dinero Insuficiente"; the
        balance stays as it was. */
    method TestDineroInsuficienteExceptionCuenta() returns (r: Outcome, saldo: real)
      ensures r.Fail? && r.error.message == "Dinero Insuficiente"
      ensures saldo == 1000.12345
    {
      var cuenta := new Cuenta("Andres", 1000.12345);
      r := cuenta.Debito(1500.0);
      saldo := cuenta.saldo;
    }

    /** `testTrasferirDineroCuenta`: transferring 500 from the account holding
        1500.8989 to the one holding 2500 leaves 1000.8989 and 3000, even though
        neither account belongs to the bank. */
    method TestTrasferirDineroCuenta() returns (r: Outcome, saldo2: real, saldo1: real)
      ensures r == Pass && saldo2 == 1000.8989 && saldo1 == 3000.0
    {
      var cuenta1 := new Cuenta("Jhon Doe", 2500.0);
      var cuenta2 := new Cuenta("Andres", 1500.8989);
      var banco := new Banco();
      banco.SetNombre("Banco del Estado");
      r := banco.Transferir(cuenta2, cuenta1, 500.0);
      saldo2 := cuenta2.saldo;
      saldo1 := cuenta1.saldo;
    }

    /** The set-up of `testRelacionBancoCuentas`: an account of "Jhon Doe" holding
        2500 and one of "Andres" holding 1500.8989, both added to a new bank. */
    method DosCuentasEnUnBanco() returns (banco: Banco, cuenta1: Cuenta, cuenta2: Cuenta)
      ensures fresh(banco) && fresh(cuenta1) && fresh(cuenta2) && cuenta1 != cuenta2
      ensures cuenta1.persona == "Jhon Doe" && cuenta1.saldo == 2500.0
      ensures cuenta2.persona == "Andres" && cuenta2.saldo == 1500.8989
      ensures banco.cuentas == [cuenta1, cuenta2]
      ensures cuenta1.banco == banco && cuenta2.banco == banco
    {
      cuenta1 := new Cuenta("Jhon Doe", 2500.0);
      cuenta2 := new Cuenta("Andres", 1500.8989);
      banco := new Banco();
      banco.AddCuenta(cuenta1);
      banco.AddCuenta(cuenta2);
    }

    /** `testRelacionBancoCuentas`: after adding two accounts and a transfer between
        them the bank lists two accounts, both owners can be found in the list, and the
        first account's bank is the bank itself, so the name set after adding it is
        seen through the account. */
    method TestRelacionBancoCuentas()
      returns (r: Outcome, saldo2: real, saldo1: real, cantidad: nat,
               nombreBanco: string, encontrada: string, hayJhon: bool,
               ghost totalAntes: real, ghost totalDespues: real)
      ensures r == Pass && saldo2 == 1000.8989 && saldo1 == 3000.0
      ensures cantidad == 2
      ensures nombreBanco == "Banco del Estado"
      ensures encontrada == "Andres" && hayJhon
      ensures totalDespues == totalAntes
    {
      var banco, cuenta1, cuenta2 := DosCuentasEnUnBanco();
      banco.SetNombre("Banco del Estado");
      totalAntes := banco.Total();
      r := banco.Transferir(cuenta2, cuenta1, 500.0);
      totalDespues := banco.Total();
      ConservaEntreDos(cuenta1, cuenta2, 500.0);

      saldo2 := cuenta2.saldo;
      saldo1 := cuenta1.saldo;
      cantidad := |banco.cuentas|;
      nombreBanco := cuenta1.banco.nombre;
      BusquedaEntreDos(cuenta1, cuenta2);
      var i := PrimeraDePersona(banco.cuentas, "Andres");
      encontrada := banco.cuentas[i.value].persona;
      hayJhon := AlgunaDePersona(banco.cuentas, "Jhon Doe");
    }
  }

  /** JUnit's lifecycle for the tests that use the fixture: each runs on a new
      instance of the test class, right after `initMetodoTest`. */
  method EjecutarConFixture()
    returns (nombre: string, saldo: real,
             rDebito: Outcome, saldoDebito: real, enteroDebito: int,
             saldoCredito: real, enteroCredito: int,
             rInsuficiente: Outcome, saldoInsuficiente: real)
    ensures nombre == "Andres" && saldo == 1000.12345
    ensures rDebito == Pass && saldoDebito == 900.12345 && enteroDebito == 900
    ensures saldoCredito == 1100.12345 && enteroCredito == 1100
    ensures rInsuficiente.Fail? && rInsuficiente.error.message == "Dinero Insuficiente"
    ensures saldoInsuficiente == 1000.12345
  {
    var t := new CuentaTest();
    t.InitMetodoTest();
    nombre := t.TestNombreCuenta();

    t := new CuentaTest();
    t.InitMetodoTest();
    saldo := t.TestSaldoCuenta();

    t := new CuentaTest();
    t.InitMetodoTest();
    rDebito, saldoDebito, enteroDebito := t.TestDebitoCuenta();

    t := new CuentaTest();
    t.InitMetodoTest();
    saldoCredito, enteroCredito := t.TestCreditoCuenta();

    t := new CuentaTest();
    t.InitMetodoTest();
    rInsuficiente, saldoInsuficiente := t.TestDineroInsuficienteExceptionCuenta();
  }
}
