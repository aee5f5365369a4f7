/** The allocation hook as the toolkit sees it: placement `new (size, paged)`
    and the two `delete` forms, recorded in a ghost log. */
module Allocation {
  import opened Interlocked
  import opened Detail

  /** Scalar `new`/`delete` or array `new[]`/`delete[]`. */
  datatype Form = ScalarForm | ArrayForm

  /** One call into the hook: an allocation of `size` bytes with residency
      class `paged` that returned `addr`, or a deallocation of `addr`. */
  datatype Event =
    | Alloc(addr: Addr, size: nat, paged: bool, form: Form)
    | Free(addr: Addr, form: Form)

  /** The allocator: only its log of calls is modelled. */
  class Allocator {
    ghost var log: seq<Event>

    constructor ()
      ensures log == []
    {
      log := [];
    }
  }

  /** The form of a `new t` or `delete` chosen by `is_array_v<t>`: array form
      exactly when `t` is an array type. */
  function FormOf(t: Type): (f: Form)
    ensures f == ArrayForm <==> IsArray(t)
  {
    if IsArray(t) then ArrayForm else ScalarForm
  }

  /** Byte count the default-extent constructors request:
      `sizeof(ElementType) * extent_v<T>` for an array type, `sizeof(T)` for
      any other type. */
  function DefaultRequest(t: Type, sizeOf: Type -> nat): (bytes: nat)
    ensures t.BoundedArray? ==> bytes == sizeOf(t.elem) * t.n
    ensures t.UnboundedArray? ==> bytes == 0
    ensures !IsArray(t) ==> bytes == sizeOf(t)
  {
    if IsArray(t) then sizeOf(RemoveExtent(t)) * Extent(t, 0) else sizeOf(t)
  }

  /** Allocation form of the default-extent constructors: `new ElementType`
      for an array type, `new T()` for any other type. */
  function DefaultForm(t: Type): (f: Form)
    ensures f == ArrayForm <==> IsArray(t) && IsArray(t.elem)
  {
    if IsArray(t) then FormOf(RemoveExtent(t)) else FormOf(t)
  }

  /** The default-extent allocation form agrees with the deallocation form
      exactly when `T` is not an array, or is an array whose element type is
      itself an array. */
  lemma DefaultFormAgreesWithDelete(t: Type)
    ensures DefaultForm(t) == FormOf(t) <==> !IsArray(t) || IsArray(RemoveExtent(t))
  {
  }

  /** For `E[n]` and `E[]` with a non-array `E`, the default-extent
      constructors allocate in scalar form and the destructors free in array
      form. */
  lemma ArrayOfScalarsMismatch(t: Type)
    requires IsArray(t) && !IsArray(t.elem)
    ensures DefaultForm(t) == ScalarForm
    ensures FormOf(t) == ArrayForm
  {
  }
}
