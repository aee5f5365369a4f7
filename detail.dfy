/** The `detail` helpers: three compile-time type traits over a C++ type, and
    `swap`. */
module Detail {

  /** A C++ type as far as the traits can tell: a non-array type, an array of
      unknown bound `E[]`, or an array of known bound `E[n]`. */
  datatype Type =
    | Named(name: string)
    | UnboundedArray(elem: Type)
    | BoundedArray(elem: Type, n: nat)

  /** `is_array_v<T>`: true for `E[]` and `E[n]`, false otherwise. */
  function IsArray(t: Type): (r: bool)
    ensures r <==> !t.Named?
  {
    t.UnboundedArray? || t.BoundedArray?
  }

  /** `remove_extent_t<T>`: strips one array dimension, if there is one. */
  function RemoveExtent(t: Type): (e: Type)
    ensures !IsArray(t) ==> e == t
    ensures IsArray(t) ==> e == t.elem && e < t
  {
    match t
    case Named(_) => t
    case UnboundedArray(elem) => elem
    case BoundedArray(elem, _) => elem
  }

  /** `extent_v<T, dim>`: the bound of `T[n]` when `dim` is 0; 0 for every
      other type and every other dimension. */
  function Extent(t: Type, dim: nat): (n: nat)
    ensures n != 0 ==> dim == 0 && t.BoundedArray? && n == t.n
    ensures dim == 0 && t.BoundedArray? ==> n == t.n
  {
    if dim == 0 && t.BoundedArray? then t.n else 0
  }

  /** `detail::swap(a, b)` through a temporary: the results are the two
      values exchanged. */
  method Swap<T>(a: T, b: T) returns (a': T, b': T)
    ensures a' == b && b' == a
  {
    var temp := a;
    a' := b;
    b' := temp;
  }
}
