/** Facts about sequences shared by the list screens. */
module Lists {
  /** `a` is `b` with some entries left out, the rest in order. */
  predicate Subsequence<T(==)>(a: seq<T>, b: seq<T>)
    decreases |b|
  {
    a == [] || (b != [] && ((a[0] == b[0] && Subsequence(a[1..], b[1..])) || Subsequence(a, b[1..])))
  }

  /** No value occurs twice. */
  predicate NoDuplicates<T(==)>(s: seq<T>) {
    forall i, j :: 0 <= i < j < |s| ==> s[i] != s[j]
  }

  /** Keeping the head of `b` on top of a subsequence of its tail. */
  lemma SubsequenceCons<T>(x: T, a: seq<T>, b: seq<T>)
    requires Subsequence(a, b)
    ensures Subsequence([x] + a, [x] + b)
  {
    assert ([x] + a)[1..] == a;
    assert ([x] + b)[1..] == b;
  }

  /** Dropping the head of `b`. */
  lemma SubsequenceSkip<T>(x: T, a: seq<T>, b: seq<T>)
    requires Subsequence(a, b)
    ensures Subsequence(a, [x] + b)
  {
    assert ([x] + b)[1..] == b;
  }

  /** Two occurrences are counted at least twice. */
  lemma TwiceCounted<T>(s: seq<T>, x: T, i: nat, k: nat)
    requires i < k < |s| && s[i] == x && s[k] == x
    ensures multiset(s)[x] >= 2
  {
    assert s == s[..k] + s[k..];
    assert s[..k][i] == x && s[k..][0] == x;
  }
}
