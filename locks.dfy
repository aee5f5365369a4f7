/** `SpinLock`, a signed counter moved by interlocked decrement and
    increment (there is no wait loop), and `ScopedLock`, its guard. */
module Locks {
  import opened Interlocked

  class SpinLock {
    /** `ref_count`. */
    var count: i64
    /** How many times `lock` and `unlock` have been called. */
    ghost var acquisitions: nat
    ghost var releases: nat

    constructor ()
      ensures count == 0 && acquisitions == 0 && releases == 0
    {
      count := 0;
      acquisitions, releases := 0, 0;
    }

    /** `ref()`: an interlocked add of zero, which reads the counter and
        leaves it as it was. */
    method Ref() returns (r: i64)
      ensures r == count
    {
      r := count;
    }

    /** `lock()`: one interlocked decrement; it never waits. */
    method Lock()
      modifies this
      ensures count == Dec64(old(count))
      ensures acquisitions == old(acquisitions) + 1 && releases == old(releases)
    {
      count := Dec64(count);
      acquisitions := acquisitions + 1;
    }

    /** `unlock()`: one interlocked increment. */
    method Unlock()
      modifies this
      ensures count == Inc64(old(count))
      ensures releases == old(releases) + 1 && acquisitions == old(acquisitions)
    {
      count := Inc64(count);
      releases := releases + 1;
    }
  }

  class ScopedLock {
    const lock: SpinLock?

    /** The constructor locks once. It dereferences the pointer it is given,
        so the pointer must not be null. */
    constructor (lock: SpinLock)
      modifies lock
      ensures this.lock == lock
      ensures lock.count == Dec64(old(lock.count))
      ensures lock.acquisitions == old(lock.acquisitions) + 1
      ensures lock.releases == old(lock.releases)
    {
      this.lock := lock;
      new;
      this.lock.Lock();
    }

    /** The destructor: unlocks once when the stored pointer is not null,
        and does nothing otherwise. */
    method Release()
      modifies lock
      ensures lock != null ==> lock.count == Inc64(old(lock.count))
      ensures lock != null ==> lock.releases == old(lock.releases) + 1
      ensures lock != null ==> lock.acquisitions == old(lock.acquisitions)
    {
      if lock != null {
        lock.Unlock();
      }
    }
  }

  /** A scope guarded by a `ScopedLock`: exactly one `lock` and one `unlock`,
      and the counter ends where it started. */
  method GuardedScope(l: SpinLock)
    modifies l
    ensures l.count == old(l.count)
    ensures l.acquisitions == old(l.acquisitions) + 1
    ensures l.releases == old(l.releases) + 1
  {
    var guard := new ScopedLock(l);
    guard.Release();
    IncDecInverse(old(l.count));
  }

  /** `ref()` on a new lock reads 0, then -1 after one `lock()`, then 0 after
      the following `unlock()`. */
  method CounterScenario() returns (initial: i64, locked: i64, unlocked: i64)
    ensures initial == 0 && locked == -1 && unlocked == 0
  {
    var l := new SpinLock();
    initial := l.Ref();
    l.Lock();
    locked := l.Ref();
    l.Unlock();
    unlocked := l.Ref();
  }

  /** The counter inside and after a guarded scope on a new lock. */
  method ScopedScenario() returns (inside: i64, after: i64)
    ensures inside == -1 && after == 0
  {
    var l := new SpinLock();
    var guard := new ScopedLock(l);
    inside := l.Ref();
    guard.Release();
    after := l.Ref();
  }
}
