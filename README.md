# Cuenta / Banco: an in-memory ledger with exact balances

This project models the small ledger that the JUnit 5 test class `CuentaTest` of
the `junit5app` example exercises. It proves properties of the model in Dafny.

- An account (`Cuenta`) has an owner (`persona`), an exact `BigDecimal` balance
  (`saldo`) and a back-reference to the bank it was added to (`banco`).
  - `debito` takes money off the balance.
  - `credito` adds money to it.
  - `equals` compares owner and balance.
- A bank (`Banco`) has a name (`nombre`) and a list of accounts (`cuentas`).
  - `addCuenta` appends an account to the list and points the account back at the bank.
  - `transferir(origen, destino, monto)` debits `origen` and credits `destino`.
- `DineroInsuficienteException` is thrown, with the message "Dinero Insuficiente",
  when a debit would leave a negative balance.

This model is derived from what `CuentaTest` asserts about `Cuenta`, `Banco` and
`DineroInsuficienteException`; it does not model those classes' own code. Every
behaviour the test leaves open is a choice listed under "Left out".

Layout, one module per file:

- `exceptions.dfy`, module `Exceptions`: the exception as a value, and the
  `Outcome`/`Result` types that operations return instead of throwing.
- `saldo.dfy`, module `Saldo`: debit and credit as pure functions on exact balances
  (`real`), histories of movements, the non-negative-balance invariant and the exact
  round trips.
- `decimal.dfy`, module `Decimal`: `BigDecimal.intValue()` (truncation toward zero,
  then the low-order 32 bits).
- `totales.dfy`, module `Totales`: sums of balances over a list of accounts, and how a
  transfer changes them. The list may hold the same account more than once.
- `models.dfy`, module `Models`: the classes `Cuenta` and `Banco`. Their methods
  change fields in place, under `modifies` clauses. `Banco.Transferir` also states how
  the bank's total holdings change.
- `cuenta_test.dfy`, module `CuentaTest`: the test class as a Dafny class.
  - `InitMetodoTest` is the `@BeforeEach` fixture.
  - Each behavioural `@Test` is one method whose postcondition is what the test asserts.
  - Two functions model the stream lookups of `testRelacionBancoCuentas`.

Balances are Dafny `real`, an exact rational, so 1000.12345 - 100 is exactly
900.12345. Getters such as `getSaldo()` and `getPersona()` are plain field reads.

## Model

| member | source | states |
|---|---|---|
| Saldo.Debito | src/test/java/org/aguzman/junit5app/ejemplos/models/CuentaTest.java:88-97 | a debit succeeds exactly when the amount does not exceed the balance; it then leaves balance minus amount, which is never negative; otherwise it yields the exception carrying "Dinero Insuficiente" |
| Saldo.Credito | src/test/java/org/aguzman/junit5app/ejemplos/models/CuentaTest.java:80-85 | a credit cannot fail; the new balance less the amount is the old balance, and a non-negative amount never lowers it |
| Saldo.HistorialNoNegativo | src/test/java/org/aguzman/junit5app/ejemplos/models/CuentaTest.java:89-93 | from a non-negative balance, any sequence of debits and non-negative credits keeps the balance non-negative, because a debit that would overdraw throws and changes nothing |
| Saldo.CreditoLuegoDebito | src/test/java/org/aguzman/junit5app/ejemplos/models/CuentaTest.java:80-85 | crediting an amount and then debiting it restores a non-negative balance exactly, with no rounding |
| Saldo.DebitoLuegoCredito | src/test/java/org/aguzman/junit5app/ejemplos/models/CuentaTest.java:71-76 | a debit that succeeds is undone exactly by a credit of the same amount |
| Decimal.Truncar | src/test/java/org/aguzman/junit5app/ejemplos/models/CuentaTest.java:74 | `intValue()` drops the fraction toward zero: the result is within one of the balance, with the same sign and not larger in magnitude |
| Decimal.IntValue | src/test/java/org/aguzman/junit5app/ejemplos/models/CuentaTest.java:83 | `intValue()` is a 32-bit `int`; it equals the truncated value whenever that fits, and agrees with it modulo 2^32 otherwise |
| Totales.NetoPorVeces | src/test/java/org/aguzman/junit5app/ejemplos/models/CuentaTest.java:122 | a transfer changes the sum over a list of accounts by the amount once per listing of the destination, less once per listing of the source |
| Totales.NetoEnProductos | src/test/java/org/aguzman/junit5app/ejemplos/models/CuentaTest.java:122 | the same change in closed form: the amount times the number of listings of the destination less the number of listings of the source |
| Totales.SumaTrasAjuste | src/test/java/org/aguzman/junit5app/ejemplos/models/CuentaTest.java:122-126 | when each listed balance moves by what the transfer gives its account, the sum moves by the transfer's total change |
| Totales.TransferenciaConserva | src/test/java/org/aguzman/junit5app/ejemplos/models/CuentaTest.java:122-126 | a transfer between two accounts listed equally often, or from an account to itself, leaves the sum of the list unchanged (money is conserved) |
| Models.Cuenta.constructor | src/test/java/org/aguzman/junit5app/ejemplos/models/CuentaTest.java:20 | a new account keeps exactly the owner and balance it was given and belongs to no bank |
| Models.Cuenta.Debito | src/test/java/org/aguzman/junit5app/ejemplos/models/CuentaTest.java:71-76 | succeeds iff the amount does not exceed the old balance; on success the balance drops by exactly the amount and stays non-negative; on failure it throws "Dinero Insuficiente" and the balance is unchanged; owner and bank never change |
| Models.Cuenta.Credito | src/test/java/org/aguzman/junit5app/ejemplos/models/CuentaTest.java:80-85 | the balance rises by exactly the amount; nothing else changes |
| Models.Cuenta.SetBanco | src/test/java/org/aguzman/junit5app/ejemplos/models/CuentaTest.java:128 | the account's bank becomes the given bank object |
| Models.IgualdadPorValor | src/test/java/org/aguzman/junit5app/ejemplos/models/CuentaTest.java:62-66 | for any owner and balance, two accounts built from them are distinct objects and `equals` holds between them in both directions: equality is by owner and balance, not identity |
| Models.DebitoYIgualdad | src/test/java/org/aguzman/junit5app/ejemplos/models/CuentaTest.java:62-66 | `equals` follows the balance: for any owner, balance and amount, after debiting one of two equal accounts they stay equal exactly when the debit threw or the amount was zero |
| Models.Banco.constructor | src/test/java/org/aguzman/junit5app/ejemplos/models/CuentaTest.java:103 | a new bank holds no accounts and has no name yet |
| Models.Banco.SetNombre | src/test/java/org/aguzman/junit5app/ejemplos/models/CuentaTest.java:104 | the bank's name becomes the given name; its account list is untouched |
| Models.Banco.AddCuenta | src/test/java/org/aguzman/junit5app/ejemplos/models/CuentaTest.java:117-119 | the account is appended to the list, which grows by one, and the account's bank is this very bank object, a shared reference and not a copy |
| Models.Banco.Transferir | src/test/java/org/aguzman/junit5app/ejemplos/models/CuentaTest.java:100-108 | succeeds iff the amount does not exceed the source's balance; on success the source loses and the destination gains exactly the amount (no change if they are the same account); on failure it throws "Dinero Insuficiente" and no balance changes; the bank's total changes by the transfer's total change over its list, or not at all on failure |
| CuentaTest.PrimeraDePersona | src/test/java/org/aguzman/junit5app/ejemplos/models/CuentaTest.java:129-132 | `filter(...).findFirst()` finds the first listed account owned by the given person, or nothing exactly when no listed account is theirs |
| CuentaTest.AlgunaDePersona | src/test/java/org/aguzman/junit5app/ejemplos/models/CuentaTest.java:133-134 | `anyMatch` holds exactly when some listed account is owned by the given person |
| CuentaTest.BusquedaEntreDos | src/test/java/org/aguzman/junit5app/ejemplos/models/CuentaTest.java:129-134 | in the list [Jhon Doe's account, Andres's account], Andres's first account is the second entry and Jhon Doe has an account |
| CuentaTest.ConservaEntreDos | src/test/java/org/aguzman/junit5app/ejemplos/models/CuentaTest.java:122-126 | a transfer in either direction between the two accounts of a two-account bank leaves the bank's total unchanged |
| CuentaTest.CuentaTest.InitMetodoTest | src/test/java/org/aguzman/junit5app/ejemplos/models/CuentaTest.java:18-20 | before every test the field `cuenta` holds a fresh account of "Andres" with balance 1000.12345 and no bank, the state every fixture-based test requires |
| CuentaTest.CuentaTest.TestNombreCuenta | src/test/java/org/aguzman/junit5app/ejemplos/models/CuentaTest.java:42-50 | the fixture's owner is "Andres" |
| CuentaTest.CuentaTest.TestSaldoCuenta | src/test/java/org/aguzman/junit5app/ejemplos/models/CuentaTest.java:54-59 | the fixture's balance is exactly 1000.12345, not negative and strictly positive |
| CuentaTest.CuentaTest.TestReferenciaCuenta | src/test/java/org/aguzman/junit5app/ejemplos/models/CuentaTest.java:63-68 | two accounts built separately from ("John Doe", 8900.9997) are distinct objects and yet equal |
| CuentaTest.CuentaTest.TestDebitoCuenta | src/test/java/org/aguzman/junit5app/ejemplos/models/CuentaTest.java:71-76 | debiting 100 from 1000.12345 succeeds and leaves exactly 900.12345, whose `intValue()` is 900 |
| CuentaTest.CuentaTest.TestCreditoCuenta | src/test/java/org/aguzman/junit5app/ejemplos/models/CuentaTest.java:80-85 | crediting 100 to 1000.12345 leaves exactly 1100.12345, whose `intValue()` is 1100 |
| CuentaTest.CuentaTest.TestDineroInsuficienteExceptionCuenta | src/test/java/org/aguzman/junit5app/ejemplos/models/CuentaTest.java:89-97 | debiting 1500 from 1000.12345 throws the exception whose message is exactly "Dinero Insuficiente", and the balance stays 1000.12345 |
| CuentaTest.CuentaTest.TestTrasferirDineroCuenta | src/test/java/org/aguzman/junit5app/ejemplos/models/CuentaTest.java:100-108 | transferring 500 from 1500.8989 to 2500 succeeds and leaves exactly 1000.8989 and 3000, though neither account belongs to the bank |
| CuentaTest.EjecutarConFixture | src/test/java/org/aguzman/junit5app/ejemplos/models/CuentaTest.java:12-97 | running each fixture-based test on a new test instance right after `initMetodoTest`, as JUnit does, yields the values those tests assert: owner "Andres"; balance 1000.12345; a successful debit leaving 900.12345 with `intValue()` 900; a credit leaving 1100.12345 with `intValue()` 1100; and the "Dinero Insuficiente" failure that keeps 1000.12345 |
| CuentaTest.CuentaTest.DosCuentasEnUnBanco | src/test/java/org/aguzman/junit5app/ejemplos/models/CuentaTest.java:115-119 | after two `addCuenta` calls the bank lists exactly the two accounts in order and each account refers back to the bank |
| CuentaTest.CuentaTest.TestRelacionBancoCuentas | src/test/java/org/aguzman/junit5app/ejemplos/models/CuentaTest.java:113-134 | after the transfer the balances are 1000.8989 and 3000, the bank lists 2 accounts, the name set after adding is read through the first account's bank, "Andres" is found first, "Jhon Doe" has an account, and the bank's total holdings are the same before and after the transfer |

## Left out

- The JUnit lifecycle hooks `@BeforeAll`, `@AfterAll` and `@AfterEach` are not modelled. They only print to the console. `@BeforeEach` is kept as `InitMetodoTest`.
- The tests gated on OS, JRE, system property or environment variable are not modelled. Their bodies are empty.
- The tests that print system properties and environment variables are not modelled. They are pure I/O.
- CuentaTest.CuentaTest.TestSaldoCuenta: does not state the `doubleValue()` comparison of line 56. That comparison is floating point; the exact balance 1000.12345 is stated instead.
- `BigDecimal` scale and `toPlainString()` are not modelled. Assertions on strings such as "900.12345" are stated on the exact numeric value.
- Models.Cuenta.Equals: ignores the scale of the balance. `BigDecimal.equals` treats 2500 and 2500.0 as different; this model treats them as equal. Comparison with `null` or a non-account is not modelled either.
- `assertNotNull` checks are not modelled. Dafny's non-null reference types make them hold by construction.
- `assertAll` is not modelled. It reports all failures together, which does not matter once every assertion is proved.
- `setPersona` (commented out at line 43) is not modelled. No test calls it.
- `Saldo.Credito` and `Cuenta.Credito` do not guard against negative amounts. Like a debit with a negative amount, a credit with one is accepted and simply adds the amount. The test never tries either.
- The classes' own code is not modelled; only what `CuentaTest` asserts is. Where the test is silent, the model makes these choices:
  - A debit of exactly the whole balance succeeds and leaves 0. Only a strictly negative result throws.
  - A debit that throws leaves the balance unchanged.
  - The constructor accepts a negative initial balance.
  - `addCuenta` appends the same account again if it is already listed.
  - `transferir` does not check that either account belongs to the bank. The test transfers between accounts that are not in it.
  - `transferir` debits its first argument before crediting its second. A failed debit therefore leaves both accounts untouched.
  - The name of a new bank is the empty string. In Java it is `null`.
- Saldo.HistorialNoNegativo: assumes the starting balance and every credit amount are non-negative. The model accepts both negative starting balances and negative credits, so the invariant holds only under those assumptions.
- Concurrency is not modelled. The program has none.
