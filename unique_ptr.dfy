/** `UniquePtr<T>`: sole owner of one allocation, freed by its destructor. */
module UniquePtrs {
  import opened Interlocked
  import opened Detail
  import opened Allocation

  class UniquePtr {
    /** The template argument `T`. */
    const ty: Type
    /** `data`: the address the allocation hook returned. */
    const data: Addr

    /** `UniquePtr(paged)`: one allocation of the default-extent size, with
        the residency class passed through; `p` is what the hook returns. */
    constructor (ty: Type, paged: bool, sizeOf: Type -> nat, p: Addr, heap: Allocator)
      modifies heap
      ensures this.ty == ty && data == p
      ensures heap.log == old(heap.log) + [Alloc(p, DefaultRequest(ty, sizeOf), paged, DefaultForm(ty))]
    {
      this.ty, data := ty, p;
      new;
      heap.log := heap.log + [Alloc(p, DefaultRequest(ty, sizeOf), paged, DefaultForm(ty))];
    }

    /** `UniquePtr(size, paged)`: one `new T` of exactly `size` bytes. */
    constructor WithSize(ty: Type, size: nat, paged: bool, p: Addr, heap: Allocator)
      modifies heap
      ensures this.ty == ty && data == p
      ensures heap.log == old(heap.log) + [Alloc(p, size, paged, FormOf(ty))]
    {
      this.ty, data := ty, p;
      new;
      heap.log := heap.log + [Alloc(p, size, paged, FormOf(ty))];
    }

    /** `~UniquePtr`: exactly one deallocation of `data`, in array form iff
        `T` is an array type. */
    method Destroy(heap: Allocator)
      modifies heap
      ensures heap.log == old(heap.log) + [Free(data, FormOf(ty))]
    {
      if IsArray(ty) {
        heap.log := heap.log + [Free(data, ArrayForm)];
      } else {
        heap.log := heap.log + [Free(data, ScalarForm)];
      }
    }

    /** `ptr()`: the owned address; ownership stays here. */
    method Ptr() returns (p: Addr)
      ensures p == data
    {
      p := data;
    }
  }

  /** The whole life of a `UniquePtr<E[n]>` with a non-array `E` built by the
      default-extent constructor: one scalar-form allocation of
      `n * sizeof(E)` bytes, then one array-form deallocation of the same
      address. */
  method BoundedArrayLifetime(elem: Type, n: nat, paged: bool, sizeOf: Type -> nat, p: Addr, heap: Allocator)
    requires !IsArray(elem)
    modifies heap
    ensures heap.log == old(heap.log) + [Alloc(p, n * sizeOf(elem), paged, ScalarForm), Free(p, ArrayForm)]
  {
    var u := new UniquePtr(BoundedArray(elem, n), paged, sizeOf, p, heap);
    ArrayOfScalarsMismatch(u.ty);
    u.Destroy(heap);
  }
}
