/** The heap sort of include/pump/toolkit/sort.h. The children of i are 2i and 2i + 1 also for the root 0, whose one
    proper child is thus 1; every other k has the parent k / 2 as in a heap that starts at 1. */
module HeapSort {
  /** The entries below s are no larger than their parents, for parents from i on. */
  ghost predicate HeapFrom(q: seq<int>, s: nat, i: nat)
    requires s <= |q|
  {
    forall k :: 1 <= k < s && i <= k / 2 ==> q[k] <= q[k / 2]
  }

  /** A heap from root on but for entry i, which may be smaller than its children; they stay below its parent. */
  ghost predicate HeapBut(q: seq<int>, s: nat, root: nat, i: nat)
    requires s <= |q|
  {
    && (forall k :: 1 <= k < s && root <= k / 2 && k / 2 != i ==> q[k] <= q[k / 2])
    && (1 <= i < s && root <= i / 2 ==> forall k :: 1 <= k < s && k / 2 == i ==> q[k] <= q[i / 2])
  }

  ghost predicate Sorted(q: seq<int>, lo: nat, hi: nat)
    requires lo <= hi <= |q|
  {
    forall j, k :: lo <= j < k < hi ==> q[j] <= q[k]
  }

  ghost predicate Below(q: seq<int>, s: nat, x: int)
    requires s <= |q|
  {
    forall k :: 0 <= k < s ==> q[k] <= x
  }

  function Swapped(q: seq<int>, i: nat, j: nat): (r: seq<int>)
    requires i < |q| && j < |q|
    ensures |r| == |q|
  {
    q[i := q[j]][j := q[i]]
  }

  /** The largest of i and its children below s. */
  function Largest(q: seq<int>, s: nat, i: nat): (c: nat)
    requires s <= |q|
    ensures c == i || (i < c < s && c / 2 == i && q[i] < q[c])
    ensures i < s ==> forall k :: 1 <= k < s && k / 2 == i ==> q[k] <= q[c]
  {
    var c := if 2 * i < s && q[2 * i] > q[i] then 2 * i else i;
    if 2 * i + 1 < s && q[2 * i + 1] > q[c] then 2 * i + 1 else c
  }

  function Sift(q: seq<int>, s: nat, i: nat): (r: seq<int>)
    requires s <= |q|
    ensures |r| == |q|
    decreases s - i
  {
    var c := Largest(q, s, i);
    if c == i then q else Sift(Swapped(q, i, c), s, c)
  }

  lemma {:induction false} SiftMakesHeap(q: seq<int>, s: nat, root: nat, i: nat)
    requires s <= |q| && root <= i && HeapBut(q, s, root, i)
    ensures HeapFrom(Sift(q, s, i), s, root)
    decreases s - i
  {
    var c := Largest(q, s, i);
    if c != i {
      SwapKeepsHeap(q, s, root, i, c);
      SiftMakesHeap(Swapped(q, i, c), s, root, c);
    }
  }

  lemma SwapKeepsHeap(q: seq<int>, s: nat, root: nat, i: nat, c: nat)
    requires s <= |q| && root <= i && HeapBut(q, s, root, i) && c == Largest(q, s, i) && c != i
    ensures HeapBut(Swapped(q, i, c), s, root, c)
  {}

  /** Entries from s on are left alone, and below s nothing new appears. */
  lemma {:induction false} SiftRearranges(q: seq<int>, s: nat, i: nat)
    requires s <= |q|
    ensures Sift(q, s, i)[s..] == q[s..] && multiset(Sift(q, s, i)) == multiset(q)
    ensures forall x :: Below(q, s, x) ==> Below(Sift(q, s, i), s, x)
    decreases s - i
  {
    var c := Largest(q, s, i);
    if c != i {
      SiftRearranges(Swapped(q, i, c), s, c);
    }
  }

  lemma {:induction false} RootIsLargest(q: seq<int>, s: nat, k: nat)
    requires k < s <= |q| && HeapFrom(q, s, 0)
    ensures q[k] <= q[0]
  {
    if k > 0 { RootIsLargest(q, s, k / 2); }
  }

  /** `__max_heapify`. */
  method MaxHeapify(a: array<int>, s: nat, i: nat)
    requires s <= a.Length
    modifies a
    ensures a[..] == Sift(old(a[..]), s, i)
    decreases s - i
  {
    var l, r := i * 2, i * 2 + 1;
    var largest := i;
    if l < s && a[l] > a[i] { largest := l; }
    if r < s && a[r] > a[largest] { largest := r; }
    assert largest == Largest(a[..], s, i);
    if largest != i {
      ghost var q := a[..];
      a[i], a[largest] := a[largest], a[i];
      assert a[..] == Swapped(q, i, largest);
      MaxHeapify(a, s, largest);
    }
  }

  /** `__bulid_max_heap`. */
  method BuildMaxHeap(a: array<int>, s: nat)
    requires s <= a.Length
    modifies a
    ensures HeapFrom(a[..], s, 0)
    ensures multiset(a[..]) == multiset(old(a[..])) && a[s..] == old(a[s..])
  {
    var i := s / 2;
    while i >= 0
      invariant -1 <= i <= s / 2
      invariant HeapFrom(a[..], s, i + 1)
      invariant multiset(a[..]) == multiset(old(a[..])) && a[s..] == old(a[s..])
    {
      ghost var q := a[..];
      assert HeapBut(q, s, i, i);
      MaxHeapify(a, s, i);
      SiftMakesHeap(q, s, i, i);
      SiftRearranges(q, s, i);
      assert a[s..] == a[..][s..] && old(a[s..]) == q[s..];
      i := i - 1;
    }
  }

  /** `heap_sort`: the first s entries in order, the others as they were. */
  method Sort(a: array<int>, s: nat)
    requires s <= a.Length
    modifies a
    ensures Sorted(a[..], 0, s)
    ensures multiset(a[..]) == multiset(old(a[..])) && a[s..] == old(a[s..])
  {
    BuildMaxHeap(a, s);
    var i := s - 1;
    var m: nat := s;
    while i >= 1
      invariant m == i + 1 && PartSorted(a[..], s, m)
      invariant multiset(a[..]) == multiset(old(a[..])) && a[s..] == old(a[s..])
    {
      OneRound(a[..], s, i);
      ghost var q := a[..];
      a[0], a[i] := a[i], a[0];
      m := m - 1;
      assert a[..] == Swapped(q, 0, i);
      hide Sift, PartSorted;
      MaxHeapify(a, m, 0);
      assert a[s..] == a[..][s..] && old(a[s..]) == q[s..];
      i := i - 1;
    }
  }

  /** A heap of m entries, the others up to s in order behind it and none of them smaller. */
  ghost predicate PartSorted(q: seq<int>, s: nat, m: nat)
    requires m <= s <= |q|
  {
    HeapFrom(q, m, 0) && Sorted(q, m, s) && forall k :: m <= k < s ==> Below(q, m, q[k])
  }

  lemma OneRound(q: seq<int>, s: nat, m: nat)
    requires 0 < m < s <= |q| && PartSorted(q, s, m + 1)
    ensures var r := Sift(Swapped(q, 0, m), m, 0);
            PartSorted(r, s, m) && multiset(r) == multiset(q) && r[s..] == q[s..]
  {
    var q' := Swapped(q, 0, m);
    TopToBack(q, s, m);
    SiftMakesHeap(q', m, 0, 0);
    SiftRearranges(q', m, 0);
    hide Sift;
    AfterSift(q', Sift(q', m, 0), s, m);
  }

  lemma TopToBack(q: seq<int>, s: nat, m: nat)
    requires 0 < m < s <= |q| && HeapFrom(q, m + 1, 0)
    requires Sorted(q, m + 1, s) && forall k :: m + 1 <= k < s ==> Below(q, m + 1, q[k])
    ensures var r := Swapped(q, 0, m);
            HeapBut(r, m, 0, 0) && Sorted(r, m, s) && (forall k :: m <= k < s ==> Below(r, m, r[k]))
            && multiset(r) == multiset(q) && r[s..] == q[s..]
  {
    forall k | 0 <= k <= m ensures q[k] <= q[0] { RootIsLargest(q, m + 1, k); }
  }

  lemma AfterSift(q: seq<int>, r: seq<int>, s: nat, m: nat)
    requires m <= s <= |q| == |r| && r[m..] == q[m..]
    requires Sorted(q, m, s) && forall k :: m <= k < s ==> Below(q, m, q[k])
    requires forall x :: Below(q, m, x) ==> Below(r, m, x)
    ensures Sorted(r, m, s) && (forall k :: m <= k < s ==> Below(r, m, r[k])) && r[s..] == q[s..]
  {
    assert forall k :: m <= k < s ==> r[k] == r[m..][k - m] == q[m..][k - m] == q[k];
    assert r[s..] == r[m..][s - m..] == q[m..][s - m..] == q[s..];
  }

  /** Lines 110-112. */
  method ScanDown(a: array<int>, i: nat, from: nat, pivot: int) returns (j: nat)
    requires i <= from < a.Length
    ensures i <= j <= from && (forall k :: j < k <= from ==> pivot <= a[k]) && (j == i || a[j] < pivot)
  {
    j := from;
    while a[j] >= pivot && j > i
      invariant i <= j <= from && forall k :: j < k <= from ==> pivot <= a[k]
      decreases j
    {
      j := j - 1;
    }
  }

  /** Lines 117-119. */
  method ScanUp(a: array<int>, from: nat, j: nat, pivot: int) returns (i: nat)
    requires from <= j < a.Length
    ensures from <= i <= j && (forall k :: from <= k < i ==> a[k] <= pivot) && (i == j || a[i] > pivot)
  {
    i := from;
    while a[i] <= pivot && i < j
      invariant from <= i <= j && forall k :: from <= k < i ==> a[k] <= pivot
      decreases j - i
    {
      i := i + 1;
    }
  }

  method Swap(a: array<int>, i: nat, j: nat, ghost left: nat, ghost right: nat)
    requires left <= i < right && left <= j < right <= a.Length
    modifies a
    ensures a[i] == old(a[j]) && a[j] == old(a[i])
    ensures forall k :: left <= k < right && k != i && k != j ==> a[k] == old(a[k])
    ensures multiset(a[..]) == multiset(old(a[..]))
    ensures a[..left] == old(a[..left]) && a[right..] == old(a[right..])
  {
    a[i], a[j] := a[j], a[i];
  }

  /** `__median_pos`, which quick sort splits at: where the first entry ends up once smaller ones are in front of it
      and larger ones behind. */
  method MedianPos(a: array<int>, left: nat, right: nat) returns (i: nat)
    requires left < right <= a.Length
    modifies a
    ensures left <= i < right && a[i] == old(a[left])
    ensures forall k :: left <= k < i ==> a[k] <= a[i]
    ensures forall k :: i <= k < right ==> a[i] <= a[k]
    ensures multiset(a[..]) == multiset(old(a[..]))
    ensures a[..left] == old(a[..left]) && a[right..] == old(a[right..])
  {
    i := left;
    var j: nat := right - 1;
    var pivot := a[left];
    while i < j
      invariant left <= i <= j < right && a[i] == pivot
      invariant forall k :: left <= k < i ==> a[k] <= pivot
      invariant forall k :: j < k < right ==> pivot <= a[k]
      invariant multiset(a[..]) == multiset(old(a[..]))
      invariant a[..left] == old(a[..left]) && a[right..] == old(a[right..])
      decreases j - i
    {
      j := ScanDown(a, i, j, pivot);
      if j > i {
        Swap(a, i, j, left, right);
        i := i + 1;
      }
      i := ScanUp(a, i, j, pivot);
      if i < j {
        Swap(a, i, j, left, right);
        j := j - 1;
      }
    }
  }
}
