/** Sequences put together. */
module Lists {
  lemma Associate<T>(a: seq<T>, b: seq<T>, c: seq<T>)
    ensures a + (b + c) == a + b + c
  {
  }

  /** What is before an index, when at most one more is put behind `a`. */
  lemma TakeOfAppend<T>(a: seq<T>, b: seq<T>, i: nat)
    requires |b| <= 1 && i < |a + b|
    ensures i < |a| ==> (a + b)[..i] == a[..i] && (a + b)[i] == a[i]
    ensures i >= |a| ==> (a + b)[..i] == a && b == [(a + b)[i]]
  {
  }
}
