/** The single error of the ledger: a debit that would leave a negative balance.
    In the Java program it is thrown as `DineroInsuficienteException`; here it is a
    value that the operations return, so the failure path is part of each contract. */
module Exceptions {

  /** The exception and the message it carries (`getMessage()`). */
  datatype DineroInsuficienteException = DineroInsuficienteException(message: string)

  /** The one exception value the ledger ever raises. */
  const DineroInsuficiente: DineroInsuficienteException := DineroInsuficienteException("Dinero Insuficiente")

  /** What a `void` Java method that may throw returns: it completed, or it threw. */
  datatype Outcome = Pass | Fail(error: DineroInsuficienteException)

  /** What a Java computation of a value that may throw returns. */
  datatype Result<T> = Ok(value: T) | Err(error: DineroInsuficienteException)
}
