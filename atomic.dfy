/** `Atomic<T>`: a pointer cell read and written with
    `_InterlockedCompareExchangePointer`. The intrinsic's operands are, in
    order, the destination, the exchange value and the comparand. */
module Atomics {
  import opened Interlocked

  class Atomic {
    /** `&this->data`, the cell's own address, which is never null. */
    const self: Addr
    /** `data`. */
    var data: Addr

    /** `Atomic()`: the cell holds null. */
    constructor (self: Addr)
      requires self != Null
      ensures this.self == self && data == Null
    {
      this.self, data := self, Null;
    }

    /** `Atomic(p)`: the cell holds `p`. */
    constructor Holding(self: Addr, p: Addr)
      requires self != Null
      ensures this.self == self && data == p
    {
      this.self, data := self, p;
    }

    /** `exchange(p)`: a compare-exchange with the cell's own address as the
        exchange value and `p` as the comparand. When the cell holds `p` it
        then holds its own address; otherwise it does not change. */
    method Exchange(p: Addr)
      modifies this
      ensures data == CompareExchange(old(data), self, p).stored
      ensures data == if old(data) == p then self else old(data)
    {
      data := CompareExchange(data, self, p).stored;
    }

    /** `load()`: a compare-exchange with the cell's own address as both
        operands. It returns the stored pointer. The write-back is not
        modelled: `CompareExchangeSameOperands` shows it stores what was
        already there. */
    method Load() returns (p: Addr)
      ensures p == data
    {
      p := CompareExchange(data, self, self).previous;
    }
  }

  /** `exchange(p)` never leaves `p` in the cell unless `p` is the cell's own
      address: the argument is only ever compared, never stored. */
  lemma ExchangeNeverStoresArgument(current: Addr, self: Addr, p: Addr)
    requires p != self
    ensures CompareExchange(current, self, p).stored != p
  {
  }

  /** A new cell holding null keeps null after `exchange(p)` for any
      non-null `p`. */
  method NullCellScenario(self: Addr, p: Addr) returns (after: Addr)
    requires self != Null && p != Null
    ensures after == Null
  {
    var cell := new Atomic(self);
    cell.Exchange(p);
    after := cell.Load();
  }
}
