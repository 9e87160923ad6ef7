/**
 * Small value types shared by the modules below: JavaScript's null/undefined
 * as an Option, string truthiness, Math.ceil of an integer quotient, and the
 * paged-result record the search endpoints answer with.
 */
module Common {

  /** A value that may be null or undefined (None). */
  datatype Option<T> = None | Some(value: T) {
    function GetOr(default: T): T {
      match this
      case Some(v) => v
      case None => default
    }
  }

  /** JavaScript truthiness of an optional string: present and not empty. */
  predicate Truthy(s: Option<string>) {
    s.Some? && s.value != ""
  }

  /** Math.ceil(a / b) for a non-negative count and a positive divisor. */
  function CeilDiv(a: nat, b: int): (r: nat)
    requires b >= 1
    ensures (r - 1) * b < a <= r * b
  {
    var q := a / b;
    var m := a % b;
    assert a == q * b + m && 0 <= m < b;
    if m == 0 then q else q + 1
  }

  /** The integers lo, lo + 1, ..., hi - 1, in order. */
  function Span(lo: int, hi: int): (r: seq<int>)
    requires lo <= hi
    ensures |r| == hi - lo
    ensures forall k :: 0 <= k < |r| ==> r[k] == lo + k
  {
    seq(hi - lo, k => lo + k)
  }

  /** The page record returned by the search endpoints. */
  datatype PagedResult<T> = PagedResult(
    totalSize: nat,
    pageNumber: int,
    pageSize: int,
    totalPages: nat,
    elements: seq<T>)
}
