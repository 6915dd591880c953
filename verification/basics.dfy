/**
  Small building blocks shared by the cart and order models: an optional value
  (a request field that may be absent, a document lookup that may miss) and
  the "first element that satisfies a test" search that both `Array.find` on a
  cart and a `findOne` query over the order collection perform.
 */
module Basics {

  /** A value that may be absent: a missing request field or a failed lookup. */
  datatype Option<+T> = None | Some(value: T)

  /** True when some element of `s` satisfies `p`. */
  predicate Exists<T>(s: seq<T>, p: T -> bool) {
    exists j :: 0 <= j < |s| && p(s[j])
  }

  /** `k` is the position of the first element of `s` that satisfies `p`. */
  predicate IsFirst<T>(s: seq<T>, p: T -> bool, k: nat) {
    && k < |s|
    && p(s[k])
    && forall j :: 0 <= j < k ==> !p(s[j])
  }

  /** The position of the first element of `s` satisfying `p`, scanning from the front. */
  function FirstIndex<T>(s: seq<T>, p: T -> bool): (k: Option<nat>)
    ensures k.Some? <==> Exists(s, p)
    ensures k.Some? ==> IsFirst(s, p, k.value)
  {
    if |s| == 0 then None
    else if p(s[0]) then Some(0)
    else
      match FirstIndex(s[1..], p)
      case None => None
      case Some(k) => Some(k + 1)
  }

  /**
    The search only looks at the verdict of `p` on each element: two sequences
    on which `p` agrees position by position have their first match at the same place.
   */
  lemma {:induction false} FirstIndexDependsOnlyOnVerdicts<T>(a: seq<T>, b: seq<T>, p: T -> bool)
    requires |a| == |b|
    requires forall j :: 0 <= j < |a| ==> p(a[j]) == p(b[j])
    ensures FirstIndex(a, p) == FirstIndex(b, p)
  {
    if |a| > 0 && !p(a[0]) {
      FirstIndexDependsOnlyOnVerdicts(a[1..], b[1..], p);
    }
  }
}
