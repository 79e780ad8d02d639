/** The completeness check on a chunk manifest, and the sort by chunk index that follows it. */
module Manifest {
  import opened Types

  function Indices(manifest: seq<ChunkMeta>): (r: seq<int>)
    ensures |r| == |manifest|
    ensures forall i :: 0 <= i < |r| ==> r[i] == manifest[i].index
  {
    seq(|manifest|, i requires 0 <= i < |manifest| => manifest[i].index)
  }

  function Range(n: nat): (r: seq<int>)
    ensures |r| == n
    ensures forall i :: 0 <= i < n ==> r[i] == i
  {
    seq(n, i => i)
  }

  function Values(s: seq<int>): set<int> {
    set x | x in s
  }

  /** Completion accepts a manifest when the *set* of its indices is the range 0..n-1 and the sizes add up. */
  predicate IsComplete(manifest: seq<ChunkMeta>, size: int) {
    && manifest != []
    && Values(Indices(manifest)) == Values(Range(|manifest|))
    && Total(manifest) == size
  }

  predicate InOrder(manifest: seq<ChunkMeta>) {
    forall i :: 0 <= i < |manifest| ==> manifest[i].index == i
  }

  // ---- Sorting by index: stable, as Python's sorted() is ----

  function Insert(c: ChunkMeta, sorted: seq<ChunkMeta>): seq<ChunkMeta> {
    if sorted == [] || sorted[|sorted| - 1].index <= c.index then sorted + [c]
    else Insert(c, sorted[..|sorted| - 1]) + [sorted[|sorted| - 1]]
  }

  function SortByIndex(manifest: seq<ChunkMeta>): seq<ChunkMeta> {
    if manifest == [] then []
    else Insert(manifest[|manifest| - 1], SortByIndex(manifest[..|manifest| - 1]))
  }

  predicate Ascending(manifest: seq<ChunkMeta>) {
    forall i, j :: 0 <= i < j < |manifest| ==> manifest[i].index <= manifest[j].index
  }

  function WithIndex(manifest: seq<ChunkMeta>, index: int): seq<ChunkMeta> {
    if manifest == [] then []
    else WithIndex(manifest[..|manifest| - 1], index)
         + if manifest[|manifest| - 1].index == index then [manifest[|manifest| - 1]] else []
  }

  lemma WithIndexAppend(manifest: seq<ChunkMeta>, c: ChunkMeta, index: int)
    ensures WithIndex(manifest + [c], index) == WithIndex(manifest, index) + if c.index == index then [c] else []
  {
    assert (manifest + [c])[..|manifest|] == manifest;
  }

  lemma {:induction false} InsertAddsOne(c: ChunkMeta, sorted: seq<ChunkMeta>)
    ensures multiset(Insert(c, sorted)) == multiset(sorted) + multiset{c}
  {
    if !(sorted == [] || sorted[|sorted| - 1].index <= c.index) {
      assert sorted == sorted[..|sorted| - 1] + [sorted[|sorted| - 1]];
      InsertAddsOne(c, sorted[..|sorted| - 1]);
    }
  }

  lemma {:induction false} InsertIsAscending(c: ChunkMeta, sorted: seq<ChunkMeta>)
    requires Ascending(sorted)
    ensures Ascending(Insert(c, sorted))
    ensures forall i :: 0 <= i < |Insert(c, sorted)| ==> Insert(c, sorted)[i] == c || Insert(c, sorted)[i] in sorted
  {
    if !(sorted == [] || sorted[|sorted| - 1].index <= c.index) {
      InsertIsAscending(c, sorted[..|sorted| - 1]);
    }
  }

  lemma {:induction false} InsertIsStable(c: ChunkMeta, sorted: seq<ChunkMeta>, index: int)
    requires Ascending(sorted)
    ensures WithIndex(Insert(c, sorted), index) == WithIndex(sorted, index) + if c.index == index then [c] else []
  {
    if sorted == [] || sorted[|sorted| - 1].index <= c.index {
      WithIndexAppend(sorted, c, index);
    } else {
      var init, last := sorted[..|sorted| - 1], sorted[|sorted| - 1];
      InsertIsStable(c, init, index);
      WithIndexAppend(Insert(c, init), last, index);
    }
  }

  /** The sort returns the same entries in ascending index order and keeps entries of equal index in their order. */
  lemma {:induction false} SortIsStable(manifest: seq<ChunkMeta>, index: int)
    ensures Ascending(SortByIndex(manifest))
    ensures multiset(SortByIndex(manifest)) == multiset(manifest)
    ensures WithIndex(SortByIndex(manifest), index) == WithIndex(manifest, index)
  {
    if manifest != [] {
      var init, last := manifest[..|manifest| - 1], manifest[|manifest| - 1];
      assert manifest == init + [last];
      SortIsStable(init, index);
      InsertIsAscending(last, SortByIndex(init));
      InsertAddsOne(last, SortByIndex(init));
      InsertIsStable(last, SortByIndex(init), index);
    }
  }

  // ---- Pigeonhole ----

  predicate Distinct(s: seq<int>) {
    forall i, j :: 0 <= i < j < |s| ==> s[i] != s[j]
  }

  lemma {:induction false} Pigeonhole(s: seq<int>)
    ensures |Values(s)| <= |s|
    ensures |Values(s)| == |s| <==> Distinct(s)
  {
    if s != [] {
      var init, last := s[..|s| - 1], s[|s| - 1];
      Pigeonhole(init);
      assert s == init + [last];
      assert Values(s) == Values(init) + {last};
      if last in init {
        var i :| 0 <= i < |init| && init[i] == last;
        assert s[i] == s[|s| - 1];
        assert Values(s) == Values(init);
      }
    }
  }

  lemma {:induction false} OccursOnce(s: seq<int>, x: int)
    requires Distinct(s)
    ensures multiset(s)[x] == if x in s then 1 else 0
  {
    if s != [] {
      var init, last := s[..|s| - 1], s[|s| - 1];
      assert s == init + [last];
      OccursOnce(init, x);
    }
  }

  /** Two lists of equal length with the same values are permutations of each other as soon as one has no repeats. */
  lemma SameValuesPermute(a: seq<int>, b: seq<int>)
    requires |a| == |b| && Distinct(b)
    ensures Values(a) == Values(b) <==> multiset(a) == multiset(b)
    ensures Values(a) == Values(b) ==> Distinct(a)
  {
    Pigeonhole(a);
    Pigeonhole(b);
    if Values(a) == Values(b) {
      forall x ensures multiset(a)[x] == multiset(b)[x] {
        OccursOnce(a, x);
        OccursOnce(b, x);
        assert x in Values(a) <==> x in Values(b);
      }
    }
    if multiset(a) == multiset(b) {
      forall x ensures x in Values(a) <==> x in Values(b) {
        assert x in a <==> x in multiset(a);
        assert x in b <==> x in multiset(b);
      }
    }
  }

  /**
   * The check is exact: a manifest passes precisely when it is a non-empty permutation of 0..n-1 whose sizes
   * add up to the session size. Equal sets leave no room for a repeated index.
   */
  lemma AcceptsExactlyPermutations(manifest: seq<ChunkMeta>, size: int)
    ensures IsComplete(manifest, size) <==>
            manifest != [] && multiset(Indices(manifest)) == multiset(Range(|manifest|)) && Total(manifest) == size
  {
    SameValuesPermute(Indices(manifest), Range(|manifest|));
  }

  lemma {:induction false} SortPermutesIndices(manifest: seq<ChunkMeta>)
    ensures multiset(Indices(SortByIndex(manifest))) == multiset(Indices(manifest))
  {
    if manifest != [] {
      var init, last := manifest[..|manifest| - 1], manifest[|manifest| - 1];
      SortPermutesIndices(init);
      InsertPermutesIndices(last, SortByIndex(init));
      assert Indices(manifest) == Indices(init) + [last.index];
    }
  }

  lemma {:induction false} InsertPermutesIndices(c: ChunkMeta, sorted: seq<ChunkMeta>)
    ensures multiset(Indices(Insert(c, sorted))) == multiset(Indices(sorted)) + multiset{c.index}
  {
    if sorted == [] || sorted[|sorted| - 1].index <= c.index {
      assert Indices(sorted + [c]) == Indices(sorted) + [c.index];
    } else {
      var init, last := sorted[..|sorted| - 1], sorted[|sorted| - 1];
      InsertPermutesIndices(c, init);
      assert Indices(sorted) == Indices(init) + [last.index];
      assert Indices(Insert(c, sorted)) == Indices(Insert(c, init)) + [last.index];
    }
  }

  /** A permutation of 0..n-1 in ascending order is the identity. */
  lemma AscendingPermutation(s: seq<int>)
    requires multiset(s) == multiset(Range(|s|))
    requires forall i, j :: 0 <= i < j < |s| ==> s[i] <= s[j]
    ensures forall i :: 0 <= i < |s| ==> s[i] == i
  {
    SameValuesPermute(s, Range(|s|));
    forall i | 0 <= i < |s| ensures 0 <= s[i] < |s| {
      assert s[i] in Values(Range(|s|));
    }
    forall i | 0 <= i < |s| ensures s[i] == i {
      ClimbsFromBelow(s, i);
      ClimbsToTop(s, i);
    }
  }

  lemma SortKeepsLength(manifest: seq<ChunkMeta>)
    ensures |SortByIndex(manifest)| == |manifest|
  {
    SortIsStable(manifest, 0);
    assert |SortByIndex(manifest)| == |multiset(SortByIndex(manifest))| == |multiset(manifest)|;
  }

  /** Sorting an accepted manifest puts chunk i at position i. */
  lemma SortPlacesEveryChunk(manifest: seq<ChunkMeta>, size: int)
    requires IsComplete(manifest, size)
    ensures |SortByIndex(manifest)| == |manifest|
    ensures InOrder(SortByIndex(manifest))
  {
    SortKeepsLength(manifest);
    AcceptsExactlyPermutations(manifest, size);
    SortPermutesIndices(manifest);
    SortIsStable(manifest, 0);
    AscendingPermutation(Indices(SortByIndex(manifest)));
  }

  lemma {:induction false} ClimbsFromBelow(s: seq<int>, i: nat)
    requires i < |s| && 0 <= s[0]
    requires forall a, b :: 0 <= a < b < |s| ==> s[a] < s[b]
    ensures i <= s[i]
  {
    if i > 0 {
      ClimbsFromBelow(s, i - 1);
    }
  }

  lemma {:induction false} ClimbsToTop(s: seq<int>, i: nat)
    requires i < |s| && s[|s| - 1] < |s|
    requires forall a, b :: 0 <= a < b < |s| ==> s[a] < s[b]
    ensures s[i] <= i
    decreases |s| - i
  {
    if i < |s| - 1 {
      ClimbsToTop(s, i + 1);
    }
  }

  // ---- Manifests that grew by appending, as the upload protocol builds them ----

  lemma {:induction false} InOrderIsSorted(manifest: seq<ChunkMeta>)
    requires InOrder(manifest)
    ensures SortByIndex(manifest) == manifest
  {
    if manifest != [] {
      var init, last := manifest[..|manifest| - 1], manifest[|manifest| - 1];
      InOrderIsSorted(init);
      assert init == [] || init[|init| - 1].index <= last.index;
      assert init + [last] == manifest;
    }
  }

  lemma InOrderIsComplete(manifest: seq<ChunkMeta>, size: int)
    requires InOrder(manifest)
    ensures IsComplete(manifest, size) <==> manifest != [] && Total(manifest) == size
  {
    assert Indices(manifest) == Range(|manifest|);
    AcceptsExactlyPermutations(manifest, size);
  }
}
