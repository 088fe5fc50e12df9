/**
 * The few pieces of JavaScript semantics that every module of the model shares:
 * `undefined`-or-value, "returns or throws", and `Array.prototype.find` (as the
 * index of the first element that satisfies a predicate).
 */
module JsCore {

  datatype Option<+T> = None | Some(value: T)

  /** The kinds of exception the modelled code can throw. */
  datatype JsError =
    | TypeError(what: string)
    | RangeError(what: string)
    | Error(message: string)

  /** A call that either returns a value or throws. */
  datatype Result<+T> = Ok(value: T) | Err(error: JsError)

  /**
   * `s.findIndex(p)` from position `from` on, as an Option: the first index at
   * or after `from` whose element satisfies `p`, or None when there is none.
   */
  function FindFrom<T>(s: seq<T>, p: T -> bool, from: nat): (r: Option<nat>)
    requires from <= |s|
    ensures r.Some? ==> from <= r.value < |s| && p(s[r.value])
    ensures r.Some? ==> forall j :: from <= j < r.value ==> !p(s[j])
    ensures r.None? ==> forall j :: from <= j < |s| ==> !p(s[j])
    decreases |s| - from
  {
    if from == |s| then None
    else if p(s[from]) then Some(from)
    else FindFrom(s, p, from + 1)
  }

  /** The index of the element `s.find(p)` returns, or None when it returns undefined. */
  function Find<T>(s: seq<T>, p: T -> bool): (r: Option<nat>)
    ensures r.Some? ==> r.value < |s| && p(s[r.value])
    ensures r.Some? ==> forall j :: 0 <= j < r.value ==> !p(s[j])
    ensures r.None? ==> forall j :: 0 <= j < |s| ==> !p(s[j])
  {
    FindFrom(s, p, 0)
  }
}
