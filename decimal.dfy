/** The part of `java.math.BigDecimal` that the ledger's observations rely on beyond
    exact arithmetic: conversion of a balance to a Java `int`. */
module Decimal {

  /** `BigDecimal.intValue()` discards the fractional part (truncation toward zero). */
  function Truncar(x: real): (r: int)
    ensures x >= 0.0 ==> r >= 0 && r as real <= x < r as real + 1.0
    ensures x < 0.0 ==> r <= 0 && r as real - 1.0 < x <= r as real
  {
    if x >= 0.0 then x.Floor else -((-x).Floor)
  }

  const DosA31: int := 0x8000_0000
  const DosA32: int := 0x1_0000_0000

  /** `BigDecimal.intValue()`: the truncated value, reduced to its low-order 32 bits
      read as a two's-complement `int` when it does not fit. */
  function IntValue(x: real): (r: int)
    ensures -DosA31 <= r < DosA31
    ensures -DosA31 <= Truncar(x) < DosA31 ==> r == Truncar(x)
    ensures (r - Truncar(x)) % DosA32 == 0
  {
    (Truncar(x) + DosA31) % DosA32 - DosA31
  }
}
