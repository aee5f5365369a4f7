# Safe.h ownership and synchronisation toolkit, modelled in Dafny

This project models the kernel-mode helpers in `Safe.h`:

- the `detail` type traits `is_array`, `remove_extent` and `extent`, and `detail::swap`;
- `SpinLock`, a signed 64-bit counter that `lock()` decrements and `unlock()` increments, with no wait loop;
- `ScopedLock`, which locks once when built and unlocks once when destroyed;
- `UniquePtr<T>`, the sole owner of one allocation made through placement `new (size, paged)`;
- `detail::SharedPtrState<T>`, a reference-counted control block, and `SharedPtr<T>`, the copyable handle onto it;
- `Atomic<T>`, a pointer cell accessed with `_InterlockedCompareExchangePointer`.

Each interlocked intrinsic is one sequential read-modify-write, defined in module `Interlocked`.
The increment and decrement wrap around in 64-bit two's complement (`Inc64`, `Dec64`).
Pointers are addresses (`Addr`, with 0 as null).
An address that the allocation hook returns is a parameter of the constructor that allocates.
The hook itself is a class `Allocation.Allocator` whose only state is a ghost log.
The log records each allocation (address, byte count, residency class `paged`, scalar or array form) and each deallocation (address, form).
A C++ type argument `T` is a `Detail.Type` value: a non-array type, `E[]` or `E[n]`.
`sizeof` is an abstract parameter `sizeOf: Type -> nat`.
C++ destructors are explicit `Destroy` methods, and `ScopedLock`'s destructor is `Release`.

Modules: `Interlocked` (intrinsics), `Detail` (traits, swap), `Allocation` (hook log, allocation forms and sizes), `Locks`, `UniquePtrs`, `SharedPtrs`, `Atomics`.

## Notable behaviour

Each point is a fact about Safe.h, and the model reproduces it.

- **Shared-pointer destruction decrements twice.** `~SharedPtr` calls `deref()` (Safe.h:308). On the last handle the count goes from 1 to 0, and the handle runs `delete state` (Safe.h:309). `~SharedPtrState` then decrements again, to -1 (Safe.h:208). That is not 0, so it returns without freeing the data (Safe.h:209). The control block is freed once; the owned data is never freed through a handle (`SharedPtrs.LastHandleQuirk`, `SharedPtrs.HandleDestructorNeverFreesData`, `SharedPtrs.CountTracksHandles`). The count is -1 after the last handle is gone.
- **`Atomic::exchange(p)` does not store `p`.** The operands of `_InterlockedCompareExchangePointer` are, in order, destination, exchange value, comparand. Safe.h:257-259 passes the cell's own address as the exchange value and `p` as the comparand. So the cell receives its own address when it already holds `p`, and otherwise does not change (`Atomics.Atomic.Exchange`, `Atomics.ExchangeNeverStoresArgument`, `Atomics.NullCellScenario`).
- **Default-extent array allocations use the scalar form.** For every array type `T` that the default-extent constructors accept, allocation is scalar form and deallocation is array form. Those types are `E[n]` and `E[]` with a non-array `E`. Safe.h:140 and Safe.h:194 evaluate `new ElementType`, a scalar `new`, and the destructors use `delete[]` (Safe.h:153, Safe.h:213; `Allocation.ArrayOfScalarsMismatch`). When the element type is itself an array, `new ElementType` has type pointer-to-element-of-`ElementType`, which cannot be stored in `ElementType* data`, so those constructors do not compile.
- **The explicit-size constructors take the form of `new T`.** In C++, `new T` with an array type `T` is an array new-expression. So Safe.h:148 and Safe.h:204 allocate in array form for `T = E[n]` and in scalar form for a non-array `T`.
- **`extent_v<E[]>` is 0** (Safe.h:45-49). So a default-extent `UniquePtr<E[]>` requests 0 bytes (Safe.h:137). Only `E[n]` requests `n * sizeof(E)`.
- **Each shared pointer makes two allocations.** `SharedPtr` allocates the control block (Safe.h:296, Safe.h:300), and the block's constructor allocates the data. The explicit-size constructor allocates the block itself with the caller's `size` bytes (Safe.h:300).
- **`ScopedLock` dereferences its argument when constructed** (Safe.h:112), so the pointer must not be null. The null check in the destructor (Safe.h:116) therefore only ever sees a non-null pointer.

## Model

| member | source | states |
|---|---|---|
| `Detail.IsArray` | Safe.h:21-31 | true exactly for `E[]` and `E[n]`, false for every non-array type |
| `Detail.RemoveExtent` | Safe.h:33-43 | a non-array type is returned unchanged; for `E[]` and `E[n]` the result is exactly the element type `E` (one dimension stripped) |
| `Detail.Extent` | Safe.h:45-52 | nonzero only for dimension 0 of `E[n]`, and then exactly `n` |
| `Detail.Swap` | Safe.h:68-73 | the two values come back exchanged; nothing else is written |
| `Interlocked.Inc64` | Safe.h:99 | the interlocked increment: `x + 1`, except that the largest value wraps to the smallest |
| `Interlocked.Dec64` | Safe.h:98 | the interlocked decrement: `x - 1`, except that the smallest value wraps to the largest |
| `Interlocked.DecIsZeroIffOne` | Safe.h:229-231 | an interlocked decrement yields 0 exactly from 1 |
| `Interlocked.IncDecInverse` | Safe.h:98-99 | an interlocked decrement and increment undo each other, wrap-around included |
| `Interlocked.CompareExchange` | Safe.h:257-265 | returns the original value; on a match with the comparand the destination receives the exchange value, otherwise it keeps its value |
| `Interlocked.CompareExchangeSameOperands` | Safe.h:263-269 | a compare-exchange with equal exchange and comparand operands never changes the destination, which is why `load()` is modelled as a pure read |
| `Allocation.FormOf` | Safe.h:151-158 | deallocation is array form exactly when `T` is an array type |
| `Allocation.DefaultRequest` | Safe.h:136-145 | the default-extent request is `sizeof(E) * n` for `E[n]`, 0 for `E[]`, `sizeof(T)` for a non-array `T` |
| `Allocation.DefaultForm` | Safe.h:139-144 | the form of the expression the default-extent constructors evaluate: `new ElementType` for an array `T`, `new T()` otherwise; array form only for an array of arrays, a case C++ rejects at Safe.h:140 and Safe.h:194 |
| `Allocation.DefaultFormAgreesWithDelete` | Safe.h:136-158 | the default-extent allocation form and the deallocation form agree exactly when `T` is not an array, apart from arrays of arrays, which do not compile; so they differ for every array type these constructors accept |
| `Allocation.ArrayOfScalarsMismatch` | Safe.h:139-140 | for an array of non-arrays, allocation is scalar form and deallocation is array form |
| `Locks.SpinLock.constructor` | Safe.h:92 | the counter starts at 0 |
| `Locks.SpinLock.Ref` | Safe.h:95-97 | returns the counter and changes nothing |
| `Locks.SpinLock.Lock` | Safe.h:98 | decrements the counter once, without waiting; counts one acquisition |
| `Locks.SpinLock.Unlock` | Safe.h:99 | increments the counter once; counts one release |
| `Locks.ScopedLock.constructor` | Safe.h:110-113 | stores the lock and calls `lock()` exactly once |
| `Locks.ScopedLock.Release` | Safe.h:115-119 | calls `unlock()` exactly once when the stored pointer is not null, never otherwise |
| `Locks.GuardedScope` | Safe.h:110-119 | over a guarded scope, one lock and one unlock, and the counter ends where it started |
| `Locks.CounterScenario` | Safe.h:92-99 | `ref()` reads 0, then -1 after `lock()`, then 0 after `unlock()` |
| `Locks.ScopedScenario` | Safe.h:92-119 | the counter is -1 inside a guarded scope on a new lock and 0 after it |
| `UniquePtrs.UniquePtr.constructor` | Safe.h:136-145 | exactly one allocation, of the default-extent size and form, with `paged` passed through |
| `UniquePtrs.UniquePtr.WithSize` | Safe.h:147-149 | exactly one allocation of exactly `size` bytes in the form of `new T`, with `paged` passed through |
| `UniquePtrs.UniquePtr.Destroy` | Safe.h:151-158 | exactly one deallocation of the owned address, in array form iff `T` is an array type |
| `UniquePtrs.UniquePtr.Ptr` | Safe.h:161-163 | returns the owned address |
| `UniquePtrs.BoundedArrayLifetime` | Safe.h:136-158 | for a non-array `E`, a `UniquePtr<E[n]>` causes one scalar-form allocation of `n * sizeof(E)` bytes, then one array-form deallocation of the same address |
| `SharedPtrs.AfterRef` | Safe.h:225-227 | `ref()`: one wrap-around increment of the count; no frees |
| `SharedPtrs.AfterDeref` | Safe.h:229-231 | `deref()`: one wrap-around decrement of the count; no frees |
| `SharedPtrs.DerefReturns` | Safe.h:229-231 | the result of `deref()`: whether `Dec64(count)` is 0, which is exactly when the count was 1 |
| `SharedPtrs.AfterStateDestructor` | Safe.h:207-218 | `~SharedPtrState` decrements the count once, leaves the block alone, and frees the data at most once |
| `SharedPtrs.StateDestructorEvents` | Safe.h:212-217 | `~SharedPtrState` issues at most one deallocation, and only of the data, in the `is_array` form |
| `SharedPtrs.AfterHandleDestructor` | Safe.h:303-311 | after `~SharedPtr` the count is -1 if it was 1 (two decrements) and one less otherwise |
| `SharedPtrs.HandleDestructorEvents` | Safe.h:303-311 | `~SharedPtr` issues at most two deallocations, and any it issues end with the scalar free of the control block |
| `SharedPtrs.DerefZeroIffLastReference` | Safe.h:229-231 | `deref()` reports 0 exactly when the count was 1 |
| `SharedPtrs.StateDestructorFreesIffLast` | Safe.h:207-218 | `~SharedPtrState` decrements, and frees the data (in the `is_array` form) exactly when it finds the count at 1 |
| `SharedPtrs.LastHandleQuirk` | Safe.h:303-311 | destroying the last handle frees the block once, leaves the count at -1 and does not free the data |
| `SharedPtrs.HandleDestructorNeverFreesData` | Safe.h:303-311 | for every count, destroying a handle never frees the data, and frees the block exactly when the count was 1 |
| `SharedPtrs.SelfAssignIsIdentity` | Safe.h:325-332 | copying a handle into a handle of the same live block leaves count, frees and log unchanged |
| `SharedPtrs.CountTracksHandles` | Safe.h:303-332 | over any sequence of copies and drops on live handles, the count equals the number of live handles and nothing is freed; after the last drop the block is freed once, the data never, and the count is -1 |
| `SharedPtrs.SharedPtrState.constructor` | Safe.h:188-199 | count 1, nothing freed, one default-extent allocation of the data |
| `SharedPtrs.SharedPtrState.WithSize` | Safe.h:201-205 | count 1, nothing freed, one allocation of exactly `size` bytes |
| `SharedPtrs.SharedPtrState.Ptr` | Safe.h:220-222 | returns the owned data's address |
| `SharedPtrs.SharedPtrState.Ref` | Safe.h:225-227 | one wrap-around increment of the count; nothing else changes |
| `SharedPtrs.SharedPtrState.Deref` | Safe.h:229-231 | one wrap-around decrement of the count, and the result is true iff it is now 0 |
| `SharedPtrs.SharedPtrState.Destroy` | Safe.h:207-218 | decrements, and frees the data only when that decrement yields 0 |
| `SharedPtrs.SharedPtr.constructor` | Safe.h:295-297 | allocates the block with `sizeof(State)` bytes, then the data; a fresh block with count 1 |
| `SharedPtrs.SharedPtr.WithSize` | Safe.h:299-301 | allocates the block and the data with `size` bytes each; a fresh block with count 1 |
| `SharedPtrs.SharedPtr.Copy` | Safe.h:317-323 | the new handle aliases the same state, whose count rises by 1 iff it is not null |
| `SharedPtrs.SharedPtr.Destroy` | Safe.h:303-311 | nothing for a null state; otherwise one `deref()`, and the block is deleted (after `~SharedPtrState`'s own decrement) only when that `deref()` reaches 0 |
| `SharedPtrs.SharedPtr.Assign` | Safe.h:325-332 | the handle ends on the other's state, which gains one reference; the previous state loses one, with its frees; self-assignment changes nothing |
| `SharedPtrs.SharedPtr.Ptr` | Safe.h:335-337 | returns the state's data address |
| `SharedPtrs.CopyThenDropScenario` | Safe.h:295-323 | copy then two drops: the count reads 2, 1, -1, and the only deallocation is the block's |
| `Atomics.Atomic.constructor` | Safe.h:247-249 | a new cell holds null |
| `Atomics.Atomic.Holding` | Safe.h:251-253 | a new cell holds the given pointer |
| `Atomics.Atomic.Exchange` | Safe.h:256-260 | when the cell holds `p` it then holds its own address; otherwise it is unchanged |
| `Atomics.Atomic.Load` | Safe.h:263-269 | returns the stored pointer and never changes it |
| `Atomics.ExchangeNeverStoresArgument` | Safe.h:256-260 | unless `p` is the cell's own address, `exchange(p)` never leaves `p` in the cell |
| `Atomics.NullCellScenario` | Safe.h:247-269 | a new null cell still holds null after `exchange` of any non-null pointer |

## Left out

- Concurrency: the memory ordering and atomicity of the `_Interlocked*` intrinsics, and interleavings of several threads. Each intrinsic is one sequential step.
- The `Lock` interface (Safe.h:77-81). `SpinLock` is its only implementation in the repository, so `ScopedLock` is modelled over `SpinLock`.
- `NoCopy` and `NoMove` (Safe.h:54-66): compile-time restrictions. The model simply gives those classes no copy operation.
- The integer aliases and `std::byte` (Safe.h:5-17).
- The real allocator: the implicit first size argument of placement `new`, allocation tags, paging and IRQL rules, and failure. The hook's results are parameters, and its calls go to a ghost log.
- The contents of owned objects, their value or default initialisation, and the actual `sizeof` values.
- `size_t` wrap-around in `sizeof(ElementType) * extent_v<T>`: sizes are unbounded naturals.
- The forwarding accessors `operator->` and `operator*` of `UniquePtr`, `SharedPtr` and `Atomic`, and `SharedPtr::get_data`: each only returns what `ptr()` or `load()` returns.
- C++ object lifetimes: the model does not stop a `Destroy` from being called twice or a handle from being used after destruction.
- Types that do not compile: the model accepts `new T` for `T = E[]` in the explicit-size constructors, and arrays of arrays (`E[n][m]`, `E[][m]`) in the default-extent constructors of `UniquePtr` and `SharedPtr`, which C++ rejects.
- SharedPtrs.SharedPtr.Assign: for two handles of the same block it states the result only while the count is nonzero.
