/** The interlocked intrinsics that the toolkit is built on, each taken as one
    sequential read-modify-write of a single word. */
module Interlocked {

  const MIN64: int := -0x8000_0000_0000_0000
  const MAX64: int := 0x7fff_ffff_ffff_ffff

  /** A signed 64-bit word (`i64`, `LONG64`). */
  type i64 = x: int | MIN64 <= x <= MAX64

  /** An address. Address 0 is the null pointer. */
  type Addr = nat

  const Null: Addr := 0

  /** `_InterlockedIncrement64`: the new value, in two's complement. */
  function Inc64(x: i64): (r: i64)
    ensures x < MAX64 ==> r == x + 1
    ensures x == MAX64 ==> r == MIN64
  {
    if x == MAX64 then MIN64 else x + 1
  }

  /** `_InterlockedDecrement64`: the new value, in two's complement. */
  function Dec64(x: i64): (r: i64)
    ensures MIN64 < x ==> r == x - 1
    ensures x == MIN64 ==> r == MAX64
  {
    if x == MIN64 then MAX64 else x - 1
  }

  /** Incrementing and decrementing undo each other, wrap-around included. */
  lemma IncDecInverse(x: i64)
    ensures Dec64(Inc64(x)) == x
    ensures Inc64(Dec64(x)) == x
  {
  }

  /** A decrement reaches zero exactly from one. */
  lemma DecIsZeroIffOne(x: i64)
    ensures Dec64(x) == 0 <==> x == 1
  {
  }

  /** What `_InterlockedCompareExchangePointer(dest, exchange, comparand)`
      leaves in the destination and what it returns. */
  datatype Exchanged = Exchanged(stored: Addr, previous: Addr)

  /** The destination is compared with `comparand`; on a match it receives
      `exchange`. The original value is returned either way. */
  function CompareExchange(dest: Addr, exchange: Addr, comparand: Addr): (r: Exchanged)
    ensures r.previous == dest
    ensures dest == comparand ==> r.stored == exchange
    ensures dest != comparand ==> r.stored == dest
  {
    if dest == comparand then Exchanged(exchange, dest) else Exchanged(dest, dest)
  }

  /** A compare-exchange whose exchange and comparand operands are equal
      never changes the destination. */
  lemma CompareExchangeSameOperands(dest: Addr, x: Addr)
    ensures CompareExchange(dest, x, x).stored == dest
  {
  }
}
