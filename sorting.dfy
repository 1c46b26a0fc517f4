/** `sort.Slice(xs, func(i, j int) bool { return xs[i].Score > xs[j].Score })`,
    which every pipeline variant applies to its reports or articles. sort.Slice
    is not stable, so the contract fixes the order of the scores and the
    multiset of the elements, never the relative order of equal scores. */
module Sorting {

  /** Scores do not increase from left to right. */
  ghost predicate NonIncreasing<T>(s: seq<T>, key: T -> int)
  {
    forall i, j :: 0 <= i < j < |s| ==> key(s[i]) >= key(s[j])
  }

  /** Sorts `a` in place so that the keys do not increase, by insertion: the
      prefix `a[..i]` is sorted and each new element is moved leftwards past
      the smaller keys. */
  method SortByKeyDesc<T>(a: array<T>, key: T -> int)
    modifies a
    ensures NonIncreasing(a[..], key)
    ensures multiset(a[..]) == old(multiset(a[..]))
  {
    var i := 0;
    while i < a.Length
      invariant 0 <= i <= a.Length
      invariant NonIncreasing(a[..i], key)
      invariant multiset(a[..]) == old(multiset(a[..]))
    {
      InsertLeft(a, i, key);
      i := i + 1;
    }
    assert a[..i] == a[..];
  }

  /** Moves `a[i]` left into the sorted prefix `a[..i]`. */
  method InsertLeft<T>(a: array<T>, i: nat, key: T -> int)
    requires i < a.Length && NonIncreasing(a[..i], key)
    modifies a
    ensures NonIncreasing(a[..i + 1], key)
    ensures multiset(a[..]) == old(multiset(a[..]))
  {
    var j := i;
    InsertingStart(a[..], i, key);
    while j > 0 && key(a[j - 1]) < key(a[j])
      invariant 0 <= j <= i < a.Length
      invariant Inserting(a[..], j, i, key)
      invariant multiset(a[..]) == old(multiset(a[..]))
    {
      SwapDown(a, j, i, key);
      j := j - 1;
    }
    InsertingDone(a[..], j, i, key);
  }

  /** One step of InsertLeft: the moving element changes places with its
      smaller left neighbour. */
  method SwapDown<T>(a: array<T>, j: nat, i: nat, key: T -> int)
    requires 0 < j <= i < a.Length && Inserting(a[..], j, i, key)
    requires key(a[j - 1]) < key(a[j])
    modifies a
    ensures Inserting(a[..], j - 1, i, key)
    ensures multiset(a[..]) == old(multiset(a[..]))
  {
    ghost var s := a[..];
    a[j - 1], a[j] := a[j], a[j - 1];
    assert a[..] == s[j - 1 := s[j]][j := s[j - 1]];
    SwapPermutes(s, j - 1, j);
    InsertingSwap(s, j, i, key);
  }

  /** While `a[i]` moves left it sits at `j`: the other elements of `a[..i + 1]`
      are in order, and those it has passed have smaller keys. */
  ghost predicate Inserting<T>(s: seq<T>, j: nat, i: nat, key: T -> int)
    requires j <= i < |s|
  {
    (forall p, q :: 0 <= p < q <= i && p != j && q != j ==> key(s[p]) >= key(s[q])) &&
    (forall q :: j < q <= i ==> key(s[j]) > key(s[q]))
  }

  lemma InsertingStart<T>(s: seq<T>, i: nat, key: T -> int)
    requires i < |s| && NonIncreasing(s[..i], key)
    ensures Inserting(s, i, i, key)
  {
    forall p, q | 0 <= p < q < i ensures key(s[p]) >= key(s[q]) {
      assert s[p] == s[..i][p] && s[q] == s[..i][q];
    }
  }

  lemma InsertingSwap<T>(s: seq<T>, j: nat, i: nat, key: T -> int)
    requires 0 < j <= i < |s| && Inserting(s, j, i, key) && key(s[j - 1]) < key(s[j])
    ensures Inserting(s[j - 1 := s[j]][j := s[j - 1]], j - 1, i, key)
  {
  }

  lemma InsertingDone<T>(s: seq<T>, j: nat, i: nat, key: T -> int)
    requires j <= i < |s| && Inserting(s, j, i, key)
    requires j == 0 || key(s[j - 1]) >= key(s[j])
    ensures NonIncreasing(s[..i + 1], key)
  {
    forall p, q | 0 <= p < q <= i ensures key(s[p]) >= key(s[q]) {
      if q == j && p < j - 1 {
        assert key(s[p]) >= key(s[j - 1]);
      }
    }
  }

  /** Exchanging two elements keeps the multiset. */
  lemma SwapPermutes<T>(s: seq<T>, p: nat, q: nat)
    requires p < q < |s|
    ensures multiset(s[p := s[q]][q := s[p]]) == multiset(s)
  {
  }
}
