/** `detail::SharedPtrState<T>`, the reference-counted control block, and
    `SharedPtr<T>`, the copyable handle onto it. */
module SharedPtrs {
  import opened Interlocked
  import opened Detail
  import opened Allocation

  /** What can be observed of one control block: its count, how many times
      the block itself has been deleted, and how many times the owned data has
      been freed. */
  datatype Block = Block(count: i64, blockFrees: nat, dataFrees: nat)

  /** Both `SharedPtrState` constructors start the count at 1. */
  const Fresh: Block := Block(1, 0, 0)

  /** `ref()`: one interlocked increment. */
  function AfterRef(b: Block): (b': Block)
    ensures b'.count == Inc64(b.count)
    ensures b'.blockFrees == b.blockFrees && b'.dataFrees == b.dataFrees
  {
    b.(count := Inc64(b.count))
  }

  /** `deref()`: one interlocked decrement ... */
  function AfterDeref(b: Block): (b': Block)
    ensures b'.count == Dec64(b.count)
    ensures b'.blockFrees == b.blockFrees && b'.dataFrees == b.dataFrees
  {
    b.(count := Dec64(b.count))
  }

  /** ... which reports whether the new count is 0. */
  function DerefReturns(b: Block): (zero: bool)
    ensures zero <==> b.count == 1
  {
    DecIsZeroIffOne(b.count);
    Dec64(b.count) == 0
  }

  /** `~SharedPtrState`: decrements once more, and frees the data only when
      that decrement itself yields 0. */
  function AfterStateDestructor(b: Block): (b': Block)
    ensures b'.count == Dec64(b.count) && b'.blockFrees == b.blockFrees
    ensures b'.dataFrees == b.dataFrees || b'.dataFrees == b.dataFrees + 1
  {
    var c := Dec64(b.count);
    if c != 0 then b.(count := c) else b.(count := c, dataFrees := b.dataFrees + 1)
  }

  /** `~SharedPtr` on a non-null state: `deref()`, and when it reports 0,
      `delete state`, which runs `~SharedPtrState` and then frees the block. */
  function AfterHandleDestructor(b: Block): (b': Block)
    ensures b'.count == if b.count == 1 then -1 else Dec64(b.count)
  {
    DecIsZeroIffOne(b.count);
    if DerefReturns(b) then
      var s := AfterStateDestructor(AfterDeref(b));
      s.(blockFrees := s.blockFrees + 1)
    else
      AfterDeref(b)
  }

  /** The deallocations `~SharedPtrState` issues for a block of type `ty`
      whose data lives at `data`. */
  function StateDestructorEvents(b: Block, ty: Type, data: Addr): (events: seq<Event>)
    ensures |events| <= 1
    ensures forall e :: e in events ==> e == Free(data, FormOf(ty))
  {
    if Dec64(b.count) == 0 then [Free(data, FormOf(ty))] else []
  }

  /** The deallocations `~SharedPtr` issues for a non-null state whose block
      lives at `addr`. */
  function HandleDestructorEvents(b: Block, ty: Type, data: Addr, addr: Addr): (events: seq<Event>)
    ensures |events| <= 2
    ensures events != [] ==> events[|events| - 1] == Free(addr, ScalarForm)
  {
    if DerefReturns(b) then StateDestructorEvents(AfterDeref(b), ty, data) + [Free(addr, ScalarForm)]
    else []
  }

  /** `deref()` reports 0 exactly when the count was 1. */
  lemma DerefZeroIffLastReference(b: Block)
    ensures DerefReturns(b) <==> b.count == 1
    ensures AfterDeref(b).count == b.count - 1 || b.count == MIN64
  {
    DecIsZeroIffOne(b.count);
  }

  /** `~SharedPtrState` frees the data exactly when it finds the count at 1,
      and touches nothing but the count and that one deallocation. */
  lemma StateDestructorFreesIffLast(b: Block, ty: Type, data: Addr)
    ensures AfterStateDestructor(b).dataFrees == if b.count == 1 then b.dataFrees + 1 else b.dataFrees
    ensures AfterStateDestructor(b).count == Dec64(b.count)
    ensures AfterStateDestructor(b).blockFrees == b.blockFrees
    ensures StateDestructorEvents(b, ty, data) == if b.count == 1 then [Free(data, FormOf(ty))] else []
  {
    DecIsZeroIffOne(b.count);
  }

  /** The handle destructor decrements twice on the last handle: the
      count goes from 1 to 0 in `deref()` and to -1 in `~SharedPtrState`,
      which therefore returns early. The block is deleted once; the data is
      not freed. */
  lemma LastHandleQuirk(b: Block, ty: Type, data: Addr, addr: Addr)
    requires b.count == 1
    ensures AfterHandleDestructor(b) == Block(-1, b.blockFrees + 1, b.dataFrees)
    ensures HandleDestructorEvents(b, ty, data, addr) == [Free(addr, ScalarForm)]
  {
  }

  /** No handle destruction ever frees the owned data, from any count; the
      block is deleted exactly when the count was 1. */
  lemma HandleDestructorNeverFreesData(b: Block, ty: Type, data: Addr, addr: Addr)
    ensures AfterHandleDestructor(b).dataFrees == b.dataFrees
    ensures AfterHandleDestructor(b).blockFrees == if b.count == 1 then b.blockFrees + 1 else b.blockFrees
    ensures HandleDestructorEvents(b, ty, data, addr) == if b.count == 1 then [Free(addr, ScalarForm)] else []
  {
    DecIsZeroIffOne(b.count);
    if DerefReturns(b) {
      DecIsZeroIffOne(AfterDeref(b).count);
    }
  }

  /** Self-assignment (a copy of the handle, then the destruction of the
      temporary that ends up with the same state) leaves a live block as it
      was. */
  lemma SelfAssignIsIdentity(b: Block, ty: Type, data: Addr, addr: Addr)
    requires b.count != 0
    ensures AfterHandleDestructor(AfterRef(b)) == b
    ensures HandleDestructorEvents(AfterRef(b), ty, data, addr) == []
  {
    IncDecInverse(b.count);
    DecIsZeroIffOne(Inc64(b.count));
  }

  /** One event in the life of the handles onto a single block: a handle is
      copied from a live one (copy-construction, or an assignment from a
      handle of this block), or a handle is dropped (destruction, or an
      assignment that moves it to another block). */
  datatype HandleOp = CopyHandle | DropHandle

  /** The number of live handles after `ops`, starting from the one handle
      that created the block. */
  function Live(ops: seq<HandleOp>): (n: int)
  {
    if ops == [] then 1
    else Live(ops[..|ops| - 1]) + (if ops[|ops| - 1] == CopyHandle then 1 else -1)
  }

  /** The block after `ops`, each performed by the operations above. */
  function Run(ops: seq<HandleOp>): (b: Block)
  {
    if ops == [] then Fresh
    else
      var b := Run(ops[..|ops| - 1]);
      if ops[|ops| - 1] == CopyHandle then AfterRef(b) else AfterHandleDestructor(b)
  }

  /** Every operation acts on a live handle, and the number of handles stays
      below the largest count. */
  ghost predicate Disciplined(ops: seq<HandleOp>)
  {
    forall k :: 0 <= k < |ops| ==> 0 < Live(ops[..k]) < MAX64
  }

  /** For every disciplined sequence of copies and drops: while handles are
      live the count equals their number and nothing is freed; once the last
      one is dropped the block has been deleted exactly once, the data never,
      and the count stands at -1. */
  lemma {:induction false} CountTracksHandles(ops: seq<HandleOp>)
    requires Disciplined(ops)
    ensures 0 <= Live(ops) <= MAX64
    ensures Live(ops) > 0 ==> Run(ops) == Block(Live(ops), 0, 0)
    ensures Live(ops) == 0 ==> Run(ops) == Block(-1, 1, 0)
  {
    if ops != [] {
      var n := |ops| - 1;
      var prefix := ops[..n];
      assert Disciplined(prefix) by {
        forall k | 0 <= k < |prefix|
          ensures 0 < Live(prefix[..k]) < MAX64
        {
          assert prefix[..k] == ops[..k];
        }
      }
      CountTracksHandles(prefix);
      assert 0 < Live(ops[..n]) < MAX64;
      if ops[n] == DropHandle {
        DecIsZeroIffOne(Live(prefix));
      }
    }
  }

  /** `SharedPtrState<T>`. */
  class SharedPtrState {
    /** The template argument `T`. */
    const ty: Type
    /** Where the block itself was allocated. */
    const addr: Addr
    /** `data`: the owned allocation. */
    const data: Addr
    /** `ref_count`. */
    var count: i64
    ghost var blockFrees: nat
    ghost var dataFrees: nat

    ghost function Snapshot(): Block
      reads this
    {
      Block(count, blockFrees, dataFrees)
    }

    /** `SharedPtrState(paged)`: count 1 and one default-extent allocation
        of the data. */
    constructor (ty: Type, paged: bool, sizeOf: Type -> nat, addr: Addr, data: Addr, heap: Allocator)
      modifies heap
      ensures this.ty == ty && this.addr == addr && this.data == data
      ensures Snapshot() == Fresh
      ensures heap.log == old(heap.log) + [Alloc(data, DefaultRequest(ty, sizeOf), paged, DefaultForm(ty))]
    {
      this.ty, this.addr, this.data := ty, addr, data;
      count := 1;
      blockFrees, dataFrees := 0, 0;
      new;
      heap.log := heap.log + [Alloc(data, DefaultRequest(ty, sizeOf), paged, DefaultForm(ty))];
    }

    /** `SharedPtrState(size, paged)`: count 1 and one `new T` of exactly
        `size` bytes. */
    constructor WithSize(ty: Type, size: nat, paged: bool, addr: Addr, data: Addr, heap: Allocator)
      modifies heap
      ensures this.ty == ty && this.addr == addr && this.data == data
      ensures Snapshot() == Fresh
      ensures heap.log == old(heap.log) + [Alloc(data, size, paged, FormOf(ty))]
    {
      this.ty, this.addr, this.data := ty, addr, data;
      count := 1;
      blockFrees, dataFrees := 0, 0;
      new;
      heap.log := heap.log + [Alloc(data, size, paged, FormOf(ty))];
    }

    /** `ptr()`. */
    method Ptr() returns (p: Addr)
      ensures p == data
    {
      p := data;
    }

    /** `ref()`. */
    method Ref()
      modifies this
      ensures Snapshot() == AfterRef(old(Snapshot()))
    {
      count := Inc64(count);
    }

    /** `deref()`. */
    method Deref() returns (zero: bool)
      modifies this
      ensures Snapshot() == AfterDeref(old(Snapshot()))
      ensures zero == DerefReturns(old(Snapshot()))
    {
      count := Dec64(count);
      zero := count == 0;
    }

    /** `~SharedPtrState`. */
    method Destroy(heap: Allocator)
      modifies this, heap
      ensures Snapshot() == AfterStateDestructor(old(Snapshot()))
      ensures heap.log == old(heap.log) + StateDestructorEvents(old(Snapshot()), ty, data)
    {
      count := Dec64(count);
      if count != 0 {
        return;
      }
      heap.log := heap.log + [Free(data, FormOf(ty))];
      dataFrees := dataFrees + 1;
    }
  }

  /** `SharedPtr<T>`. */
  class SharedPtr {
    /** `state`. */
    var state: SharedPtrState?

    /** `SharedPtr(paged)`: the block is allocated with `sizeof(State)`
        bytes (`stateSize`) at `blockAddr`, then its constructor allocates the
        data at `dataAddr`. */
    constructor (ty: Type, paged: bool, sizeOf: Type -> nat, stateSize: nat, blockAddr: Addr, dataAddr: Addr, heap: Allocator)
      modifies heap
      ensures state != null && fresh(state)
      ensures state.ty == ty && state.addr == blockAddr && state.data == dataAddr
      ensures state.Snapshot() == Fresh
      ensures heap.log == old(heap.log) + [Alloc(blockAddr, stateSize, paged, ScalarForm),
                                           Alloc(dataAddr, DefaultRequest(ty, sizeOf), paged, DefaultForm(ty))]
    {
      heap.log := heap.log + [Alloc(blockAddr, stateSize, paged, ScalarForm)];
      state := new SharedPtrState(ty, paged, sizeOf, blockAddr, dataAddr, heap);
    }

    /** `SharedPtr(size, paged)`: the block and the data are each allocated
        with `size` bytes. */
    constructor WithSize(ty: Type, size: nat, paged: bool, blockAddr: Addr, dataAddr: Addr, heap: Allocator)
      modifies heap
      ensures state != null && fresh(state)
      ensures state.ty == ty && state.addr == blockAddr && state.data == dataAddr
      ensures state.Snapshot() == Fresh
      ensures heap.log == old(heap.log) + [Alloc(blockAddr, size, paged, ScalarForm),
                                           Alloc(dataAddr, size, paged, FormOf(ty))]
    {
      heap.log := heap.log + [Alloc(blockAddr, size, paged, ScalarForm)];
      state := new SharedPtrState.WithSize(ty, size, paged, blockAddr, dataAddr, heap);
    }

    /** The copy constructor: aliases the other handle's state and takes a
        reference when that state is not null. */
    constructor Copy(other: SharedPtr)
      modifies other.state
      ensures state == other.state
      ensures old(other.state) != null ==> other.state.Snapshot() == AfterRef(old(other.state.Snapshot()))
    {
      state := other.state;
      new;
      if state != null {
        state.Ref();
      }
    }

    /** `~SharedPtr`: nothing for a null state; otherwise `deref()`, and
        `delete state` when that reports 0. */
    method Destroy(heap: Allocator)
      modifies state, heap
      ensures state == null ==> heap.log == old(heap.log)
      ensures old(state) != null ==> state.Snapshot() == AfterHandleDestructor(old(state.Snapshot()))
      ensures old(state) != null ==>
        heap.log == old(heap.log) + HandleDestructorEvents(old(state.Snapshot()), state.ty, state.data, state.addr)
    {
      if state == null {
        return;
      }
      var zero := state.Deref();
      if zero {
        state.Destroy(heap);
        heap.log := heap.log + [Free(state.addr, ScalarForm)];
        state.blockFrees := state.blockFrees + 1;
      }
    }

    /** Copy-assignment `this = other`: a temporary copy of `other`, a swap
        of the two state pointers, and the destruction of the temporary,
        which now holds this handle's previous state. */
    method Assign(other: SharedPtr, heap: Allocator)
      modifies this, state, other.state, heap
      ensures state == old(other.state)
      // The new state gained a reference ...
      ensures old(other.state) != null && old(other.state) != old(state) ==>
        state.Snapshot() == AfterRef(old(other.state.Snapshot()))
      // ... and the previous one lost one.
      ensures old(state) != null && old(state) != old(other.state) ==>
        old(state).Snapshot() == AfterHandleDestructor(old(state.Snapshot()))
      ensures old(state) != null && old(state) != old(other.state) ==>
        heap.log == old(heap.log) + HandleDestructorEvents(old(state.Snapshot()), old(state).ty, old(state).data, old(state).addr)
      ensures old(state) == null ==> heap.log == old(heap.log)
      // Assigning a handle of a block to a handle of the same block, itself
      // included, changes nothing while the block is live.
      ensures old(state) != null && old(state) == old(other.state) && old(state.count) != 0 ==>
        state.Snapshot() == old(state.Snapshot()) && heap.log == old(heap.log)
    {
      var temp := new SharedPtr.Copy(other);
      state, temp.state := Swap(state, temp.state);
      temp.Destroy(heap);
      if old(state) != null && old(state) == old(other.state) && old(state.count) != 0 {
        SelfAssignIsIdentity(old(state.Snapshot()), state.ty, state.data, state.addr);
      }
    }

    /** `ptr()`: the owned data of the state, which must not be null. */
    method Ptr() returns (p: Addr)
      requires state != null
      ensures p == state.data
    {
      p := state.Ptr();
    }
  }

  /** `SharedPtr<int> a(false); SharedPtr<int> b = a;`, then `a` and `b`
      destroyed: the count reads 2, then 1, then -1; the block is deleted
      once and the data is never freed. */
  method CopyThenDropScenario(sizeOf: Type -> nat) returns (afterCopy: i64, afterFirstDrop: i64, afterLastDrop: i64, ghost frees: seq<Event>)
    ensures afterCopy == 2 && afterFirstDrop == 1 && afterLastDrop == -1
    ensures frees == [Free(1, ScalarForm)]
  {
    var heap := new Allocator();
    var a := new SharedPtr(Named("int"), false, sizeOf, 16, 1, 2, heap);
    var b := new SharedPtr.Copy(a);
    afterCopy := b.state.count;
    a.Destroy(heap);
    afterFirstDrop := b.state.count;
    b.Destroy(heap);
    afterLastDrop := b.state.count;
    frees := heap.log[2..];
  }
}
