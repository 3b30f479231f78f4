/** Optional values: Python's `None` next to a present value. */
module Wrappers {
  datatype Option<+T> = None | Some(value: T)
}

/** Facts about sequences shared by the text and forecast modules. */
module Seqs {
  /** `a` is `b` with zero or more elements deleted, order kept. */
  ghost predicate IsSubsequence<T>(a: seq<T>, b: seq<T>)
  {
    if a == [] then true
    else if b == [] then false
    else (a[0] == b[0] && IsSubsequence(a[1..], b[1..])) || IsSubsequence(a, b[1..])
  }

  /** Keeping or dropping one leading element extends a subsequence relation. */
  lemma SubsequenceCons<T>(x: T, a: seq<T>, b: seq<T>)
    requires IsSubsequence(a, b)
    ensures IsSubsequence([x] + a, [x] + b)
    ensures IsSubsequence(a, [x] + b)
  {
    assert ([x] + a)[1..] == a;
    assert ([x] + b)[1..] == b;
    if a != [] {
      assert ([x] + a)[0] == x;
    }
  }

  /** Regrouping five appended parts. */
  lemma AppendRegroup<T>(a: seq<T>, b: seq<T>, c: seq<T>, d: seq<T>, e: seq<T>)
    ensures a + b + c + d + e == a + (b + c + d + e)
  {
    assert a + b + c + d + e == a + (b + c + d) + e;
  }
}
