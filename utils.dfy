/** The general-purpose helpers of `src/utils/utils.ts` that the core relies on. */
module Utils {
  import opened JsValues

  /** `isDefined(v)`: the value is not `undefined` (so `null` is defined). */
  function IsDefined(v: Json): (b: bool)
    ensures b <==> TypeOf(v) != "undefined"
  {
    v != JUndefined
  }

  /** A value thrown or returned by the helpers: an `ErrorMessage`, a `Failed`, or anything else. */
  datatype Value =
    | ErrorMessage(message: string)
    | Failed(error: Json, message: string)
    | Plain(v: Json)

  /** `ErrorMessage.isErr(v)`: `v instanceof ErrorMessage`. */
  predicate IsErrorMessage(v: Value) {
    v.ErrorMessage?
  }

  /** `Failed.isErr(v)`: `v instanceof Failed`. */
  predicate IsFailed(v: Value) {
    v.Failed?
  }

  /** No value is both kinds of error, and plain values are neither. */
  lemma ErrorKindsDisjoint(v: Value)
    ensures !(IsErrorMessage(v) && IsFailed(v))
    ensures v.Plain? <==> !IsErrorMessage(v) && !IsFailed(v)
  {
  }

  /** What `compareArrays(compare)` promises: equal lengths and pairwise `compare`. */
  predicate PairwiseEqual<T>(compare: (T, T) -> bool, a: seq<T>, b: seq<T>) {
    |a| == |b| && forall i :: 0 <= i < |a| ==> compare(a[i], b[i])
  }

  /** The default comparer of `compareArrays`: `===`. */
  predicate StrictEquals<T(==)>(x: T, y: T) {
    x == y
  }

  /** The comparer returned by `compareArrays(compare)`, applied to `a` and `b`. */
  method CompareArrays<T>(compare: (T, T) -> bool, a: seq<T>, b: seq<T>) returns (equal: bool)
    ensures equal <==> PairwiseEqual(compare, a, b)
    ensures |a| != |b| ==> !equal
  {
    if |a| != |b| {
      return false;
    }
    for i := 0 to |a|
      invariant forall j :: 0 <= j < i ==> compare(a[j], b[j])
    {
      if !compare(a[i], b[i]) {
        return false;
      }
    }
    return true;
  }

  /** With the default comparer, two arrays compare equal exactly when they are the same sequence. */
  lemma StrictPairwiseIsEquality<T>(a: seq<T>, b: seq<T>)
    ensures PairwiseEqual(StrictEquals, a, b) <==> a == b
  {
    if PairwiseEqual(StrictEquals, a, b) {
      assert forall i :: 0 <= i < |a| ==> a[i] == b[i];
    }
  }

  /** With the default comparer the array comparison is reflexive and symmetric, and `[]` equals `[]`. */
  lemma StrictCompareIsEquivalence<T>(a: seq<T>, b: seq<T>)
    ensures PairwiseEqual(StrictEquals, a, a)
    ensures PairwiseEqual(StrictEquals, a, b) ==> PairwiseEqual(StrictEquals, b, a)
    ensures PairwiseEqual<T>(StrictEquals, [], [])
  {
    StrictPairwiseIsEquality(a, a);
    StrictPairwiseIsEquality(a, b);
    StrictPairwiseIsEquality(b, a);
  }
}
