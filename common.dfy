/**
 * Small pieces shared by the warehouse UI model: an Option type, the
 * first-match search that JavaScript's `Array.prototype.find` performs,
 * JavaScript truthiness of an optional string, and the cells of an
 * exported PDF table.
 */
module Common {

  datatype Option<+T> = None | Some(value: T)

  /** A cell of an exported table: the source pushes numbers and strings into the same row. */
  datatype Cell = Num(n: int) | Text(s: string)

  /**
   * A `string | null` value is truthy exactly when it is present and non-empty
   * (`if (idkeluar)`, `if (!token)`).
   */
  predicate Truthy(v: Option<string>)
  {
    v.Some? && v.value != ""
  }

  /**
   * The index of the first element of `s` satisfying `p`, as `s.find(p)`
   * selects it; `None` when no element satisfies `p`.
   */
  function FindFirst<T>(s: seq<T>, p: T -> bool): (r: Option<nat>)
    ensures r.Some? ==> r.value < |s| && p(s[r.value])
    ensures r.Some? ==> forall j :: 0 <= j < r.value ==> !p(s[j])
    ensures r.None? <==> forall j :: 0 <= j < |s| ==> !p(s[j])
  {
    if |s| == 0 then None
    else if p(s[0]) then Some(0)
    else match FindFirst(s[1..], p)
      case None => None
      case Some(i) => Some(i + 1)
  }
}
