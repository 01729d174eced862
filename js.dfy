/**
 * The few JavaScript behaviours the services and components rely on:
 * truthiness of an optional string, `Array.prototype.slice(0, end)` and
 * `Array.from({ length })`.
 */
module Js {
  import opened Wrappers

  /** `if (s)` on an optional string: present and not empty. */
  predicate Given(s: Option<string>)
  {
    s.Some? && s.value != ""
  }

  /**
   * `s.slice(0, end)`: a non-negative end keeps that many elements (or all
   * of them), a negative end drops that many from the back.
   */
  function SliceFromStart<T>(s: seq<T>, end: int): (r: seq<T>)
    ensures |r| <= |s| && r == s[..|r|]
    ensures end >= 0 ==> |r| == if end < |s| then end else |s|
    ensures end < 0 ==> |r| == if |s| + end > 0 then |s| + end else 0
  {
    var stop := if end >= 0 then (if end < |s| then end else |s|)
                else (if |s| + end > 0 then |s| + end else 0);
    s[..stop]
  }

  /** A non-negative end bounds the length. */
  lemma SliceBound<T>(s: seq<T>, end: int)
    requires end >= 0
    ensures |SliceFromStart(s, end)| <= end
  {
  }

  /** `Array.from({ length: n }).length`: a negative length counts as 0. */
  function ArrayFromLength(n: int): (r: nat)
    ensures n >= 0 ==> r == n
    ensures n < 0 ==> r == 0
  {
    if n < 0 then 0 else n
  }
}
