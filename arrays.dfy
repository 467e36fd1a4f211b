/** Array helpers (src/utilities/array.ts). */
module ArrayUtil {
  import opened Wrappers

  /**
   * `find`: the first element of `a` that satisfies `p`, or `None` when no
   * element does. The array is only read.
   */
  method Find<T>(a: array<T>, p: T -> bool) returns (r: Option<T>)
    ensures r.None? <==> forall i :: 0 <= i < a.Length ==> !p(a[i])
    ensures r.Some? ==> exists i :: 0 <= i < a.Length && a[i] == r.value && p(a[i]) && FailsBefore(a[..], p, i)
  {
    var i := 0;
    while i < a.Length
      invariant 0 <= i <= a.Length
      invariant FailsBefore(a[..], p, i)
    {
      var item := a[i];
      if p(item) {
        return Some(item);
      }
      i := i + 1;
    }
    return None;
  }

  /** No element before index `n` satisfies `p`. */
  ghost predicate FailsBefore<T>(s: seq<T>, p: T -> bool, n: int)
    requires 0 <= n <= |s|
  {
    forall j :: 0 <= j < n ==> !p(s[j])
  }
}
