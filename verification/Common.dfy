/** Small shared vocabulary: optional values, and finite sums and permutations of sequences. */
module Common {

  datatype Option<+T> = None | Some(value: T)

  const MAX_INT32: int := 0x7FFF_FFFF

  function Max(a: int, b: int): int { if a >= b then a else b }

  function Min(a: int, b: int): int { if a <= b then a else b }

  /** The set of elements of a sequence. */
  function Elements<T>(s: seq<T>): set<T> { set x | x in s }

  /** `s` without the element at position `i`. */
  function Without<T>(s: seq<T>, i: nat): seq<T>
    requires i < |s|
  {
    s[..i] + s[i + 1..]
  }

  lemma WithoutMultiset<T>(s: seq<T>, i: nat)
    requires i < |s|
    ensures multiset(s) == multiset(Without(s, i)) + multiset{s[i]}
  {
    assert s == s[..i] + [s[i]] + s[i + 1..];
  }

  /** Overwriting position `i` with the last element and dropping the end removes `s[i]` and keeps the rest. */
  lemma SwapRemove<T>(s: seq<T>, i: nat)
    requires i < |s| - 1
    ensures var n := |s| - 1; Without(s[i := s[n]][..n], i) == Without(Without(s, i), n - 1)
  {
    var n := |s| - 1;
    var left, right := Without(s[i := s[n]][..n], i), Without(Without(s, i), n - 1);
    assert |left| == |right| == n - 1;
    forall k | 0 <= k < n - 1 ensures left[k] == right[k] {}
  }

  /** A permutation of a nonempty sequence holds its first element somewhere; the rest permutes the rest. */
  lemma PermutationHead<T>(xs: seq<T>, ys: seq<T>) returns (i: nat)
    requires xs != [] && multiset(xs) == multiset(ys)
    ensures i < |ys| && ys[i] == xs[0] && multiset(xs[1..]) == multiset(Without(ys, i))
  {
    assert xs[0] in multiset(ys);
    i :| i < |ys| && ys[i] == xs[0];
    WithoutMultiset(ys, i);
    assert xs == [xs[0]] + xs[1..];
    assert multiset(xs) == multiset{xs[0]} + multiset(xs[1..]);
    assert multiset(xs[1..]) == multiset(xs) - multiset{xs[0]};
    assert multiset(Without(ys, i)) == multiset(ys) - multiset{xs[0]};
  }

  lemma PermutationMembers<T>(xs: seq<T>, ys: seq<T>)
    requires multiset(xs) == multiset(ys)
    ensures |xs| == |ys|
    ensures forall x :: x in xs <==> x in ys
  {
    assert |multiset(xs)| == |multiset(ys)|;
    forall x ensures x in xs <==> x in ys {
      assert x in multiset(xs) <==> x in multiset(ys);
    }
  }

  predicate NoDuplicates<T(==)>(s: seq<T>) { forall i, j :: 0 <= i < j < |s| ==> s[i] != s[j] }

  lemma OccursOnce<T>(s: seq<T>, i: nat)
    requires NoDuplicates(s) && i < |s|
    ensures multiset(s)[s[i]] == 1
  {
    WithoutMultiset(s, i);
    assert s[i] !in Without(s, i);
  }

  lemma OccursTwice<T>(s: seq<T>, i: nat, j: nat)
    requires i < j < |s| && s[i] == s[j]
    ensures multiset(s)[s[j]] >= 2
  {
    WithoutMultiset(s, j);
    assert Without(s, j)[i] == s[j];
  }

  lemma PermutationNoDuplicates<T>(xs: seq<T>, ys: seq<T>)
    requires NoDuplicates(xs) && multiset(xs) == multiset(ys)
    ensures NoDuplicates(ys)
  {
    forall i, j | 0 <= i < j < |ys| ensures ys[i] != ys[j] {
      assert ys[j] in multiset(xs);
      var k :| 0 <= k < |xs| && xs[k] == ys[j];
      OccursOnce(xs, k);
      if ys[i] == ys[j] {
        OccursTwice(ys, i, j);
      }
    }
  }

  // ----- Sorting

  ghost predicate Orders<T>(leq: (T, T) -> bool, s: seq<T>) {
    && (forall x, y :: x in s && y in s ==> leq(x, y) || leq(y, x))
    && (forall x, y, z :: x in s && y in s && z in s && leq(x, y) && leq(y, z) ==> leq(x, z))
  }

  ghost predicate Ordered<T>(leq: (T, T) -> bool, s: seq<T>) { forall i, j :: 0 <= i < j < |s| ==> leq(s[i], s[j]) }

  lemma InsertedOrdered<T>(leq: (T, T) -> bool, s: seq<T>, x: T, k: nat)
    requires Ordered(leq, s) && k <= |s| && Orders(leq, s + [x])
    requires (forall i :: 0 <= i < k ==> leq(s[i], x)) && (k < |s| ==> leq(x, s[k]))
    ensures Ordered(leq, s[..k] + [x] + s[k..])
  {
    assert x in s + [x] && forall y :: y in s ==> y in s + [x];
    forall i | k <= i < |s| ensures leq(x, s[i]) {
      if i > k {
        assert leq(s[k], s[i]);
      }
    }
  }

  lemma InsertedOnce<T>(s: seq<T>, x: T, k: nat)
    requires k <= |s|
    ensures multiset(s[..k] + [x] + s[k..]) == multiset(s) + multiset{x}
  {
    assert s == s[..k] + s[k..];
  }

  method Insert<T>(s: seq<T>, x: T, leq: (T, T) -> bool) returns (r: seq<T>)
    requires Ordered(leq, s) && Orders(leq, s + [x])
    ensures Ordered(leq, r) && multiset(r) == multiset(s) + multiset{x}
  {
    var k := 0;
    while k < |s| && leq(s[k], x)
      invariant k <= |s| && forall i :: 0 <= i < k ==> leq(s[i], x)
    {
      k := k + 1;
    }
    assert x in s + [x] && forall y :: y in s ==> y in s + [x];
    r := s[..k] + [x] + s[k..];
    InsertedOrdered(leq, s, x, k);
    InsertedOnce(s, x, k);
  }

  method SortBy<T>(s: seq<T>, leq: (T, T) -> bool) returns (r: seq<T>)
    requires Orders(leq, s)
    ensures Ordered(leq, r) && multiset(r) == multiset(s)
  {
    r := [];
    for i := 0 to |s|
      invariant Ordered(leq, r) && multiset(r) == multiset(s[..i])
    {
      assert s[..i + 1] == s[..i] + [s[i]];
      PermutationMembers(r, s[..i]);
      r := Insert(r, s[i], leq);
    }
    assert s[..|s|] == s;
  }

  // ----- Strings

  predicate StringLeq(a: string, b: string) {
    a == [] || (b != [] && (a[0] < b[0] || (a[0] == b[0] && StringLeq(a[1..], b[1..]))))
  }

  lemma {:induction false} StringLeqTotal(a: string, b: string)
    ensures StringLeq(a, b) || StringLeq(b, a)
  {
    if a != [] && b != [] { StringLeqTotal(a[1..], b[1..]); }
  }

  lemma {:induction false} StringLeqTransitive(a: string, b: string, c: string)
    requires StringLeq(a, b) && StringLeq(b, c)
    ensures StringLeq(a, c)
  {
    if a != [] && a[0] == b[0] == c[0] { StringLeqTransitive(a[1..], b[1..], c[1..]); }
  }

  lemma SubsetCardinality<T>(a: set<T>, b: set<T>)
    requires a <= b
    ensures |a| <= |b|
  {
    assert b == a + (b - a);
  }

  // ----- Subsequences

  /** The elements of the one occur in the other, in that order. */
  predicate Subsequence<T(==)>(xs: seq<T>, ys: seq<T>)
    decreases |ys|
  {
    if xs == [] then true
    else if ys == [] then false
    else
      var m, n := |xs| - 1, |ys| - 1;
      (xs[m] == ys[n] && Subsequence(xs[..m], ys[..n])) || Subsequence(xs, ys[..n])
  }

  lemma SubsequenceGrows<T>(xs: seq<T>, ys: seq<T>, i: nat)
    requires i < |ys| && Subsequence(xs, ys[..i])
    ensures Subsequence(xs, ys[..i + 1]) && Subsequence(xs + [ys[i]], ys[..i + 1])
  {
    assert ys[..i + 1][..i] == ys[..i];
    assert (xs + [ys[i]])[..|xs|] == xs;
  }

  /** A subsequence has its own places in the other sequence, one after the other. */
  lemma {:induction false} SubsequencePlaces<T>(xs: seq<T>, ys: seq<T>) returns (at: seq<nat>)
    requires Subsequence(xs, ys)
    ensures |at| == |xs| && (forall i :: 0 <= i < |xs| ==> at[i] < |ys| && ys[at[i]] == xs[i])
    ensures forall i, j :: 0 <= i < j < |xs| ==> at[i] < at[j]
    decreases |ys|
  {
    if xs == [] {
      at := [];
    } else {
      var m, n := |xs| - 1, |ys| - 1;
      if xs[m] == ys[n] && Subsequence(xs[..m], ys[..n]) {
        at := SubsequencePlaces(xs[..m], ys[..n]);
        at := at + [n];
      } else {
        at := SubsequencePlaces(xs, ys[..n]);
      }
    }
  }
}
