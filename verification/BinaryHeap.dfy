/**
 Heap order on a sequence of timer entries, earliest deadline first: the
 push_heap and pop_heap operations over contiguous storage.
 */
module BinaryHeap {
  datatype Entry = Entry(id: nat, deadline: int, interval: int)

  function Parent(i: int): int
    requires i > 0
  {
    (i - 1) / 2
  }

  predicate IsHeap(h: seq<Entry>) {
    forall i :: 0 < i < |h| ==> h[Parent(i)].deadline <= h[i].deadline
  }

  /** The front of a heap has the least deadline. */
  lemma {:induction false} FrontIsLeast(h: seq<Entry>, i: nat)
    requires IsHeap(h) && i < |h|
    ensures h[0].deadline <= h[i].deadline
    decreases i
  {
    if i > 0 {
      FrontIsLeast(h, Parent(i));
    }
  }

  function Swap(h: seq<Entry>, i: nat, j: nat): (r: seq<Entry>)
    requires i < |h| && j < |h|
    ensures |r| == |h| && multiset(r) == multiset(h)
  {
    h[i := h[j]][j := h[i]]
  }

  /** Heap order everywhere except between `k` and its parent, whose children are already above `k`'s parent. */
  ghost predicate HeapButUp(h: seq<Entry>, k: nat) {
    && k < |h|
    && (forall i :: 0 < i < |h| && i != k ==> h[Parent(i)].deadline <= h[i].deadline)
    && (forall i :: 0 < i < |h| && Parent(i) == k && k > 0 ==> h[Parent(k)].deadline <= h[i].deadline)
  }

  method PushHeap(h: seq<Entry>, e: Entry) returns (r: seq<Entry>)
    requires IsHeap(h)
    ensures IsHeap(r) && multiset(r) == multiset(h) + multiset{e}
  {
    r := h + [e];
    var k := |h|;
    while k > 0 && r[Parent(k)].deadline > r[k].deadline
      invariant 0 <= k < |r| && |r| == |h| + 1
      invariant HeapButUp(r, k)
      invariant multiset(r) == multiset(h) + multiset{e}
    {
      SiftUpStep(r, k);
      r := Swap(r, Parent(k), k);
      k := Parent(k);
    }
  }

  lemma SiftUpStep(h: seq<Entry>, k: nat)
    requires HeapButUp(h, k) && k > 0 && h[Parent(k)].deadline > h[k].deadline
    ensures HeapButUp(Swap(h, Parent(k), k), Parent(k))
  {
  }

  /** Heap order everywhere except between `k` and its children. */
  ghost predicate HeapButDown(h: seq<Entry>, k: nat) {
    && (forall i :: 0 < i < |h| && Parent(i) != k ==> h[Parent(i)].deadline <= h[i].deadline)
    && (forall i :: 0 < i < |h| && Parent(i) == k && k > 0 ==> h[Parent(k)].deadline <= h[i].deadline)
  }

  function SmallerChild(h: seq<Entry>, k: nat): (c: nat)
    requires 2 * k + 1 < |h|
    ensures c < |h| && c > 0 && Parent(c) == k
    ensures forall i :: 0 < i < |h| && Parent(i) == k ==> h[c].deadline <= h[i].deadline
  {
    if 2 * k + 2 < |h| && h[2 * k + 2].deadline < h[2 * k + 1].deadline then 2 * k + 2 else 2 * k + 1
  }

  method SiftDown(h: seq<Entry>) returns (r: seq<Entry>)
    requires HeapButDown(h, 0)
    ensures IsHeap(r) && multiset(r) == multiset(h)
  {
    r := h;
    var k := 0;
    while 2 * k + 1 < |r|
      invariant |r| == |h| && multiset(r) == multiset(h)
      invariant HeapButDown(r, k)
      decreases |r| - k
    {
      var c := SmallerChild(r, k);
      if r[k].deadline <= r[c].deadline {
        return;
      }
      r := Swap(r, k, c);
      k := c;
    }
  }

  method PopHeap(h: seq<Entry>) returns (top: Entry, r: seq<Entry>)
    requires IsHeap(h) && h != []
    ensures top == h[0] && IsHeap(r) && multiset(h) == multiset(r) + multiset{top}
    ensures |r| == |h| - 1
  {
    top := h[0];
    var last := h[|h| - 1];
    if |h| == 1 {
      r := [];
      assert h == [top];
      return;
    }
    var moved := h[..|h| - 1][0 := last];
    assert h == [top] + h[1..|h| - 1] + [last];
    assert moved == [last] + h[1..|h| - 1];
    r := SiftDown(moved);
    assert |multiset(r)| == |multiset(moved)|;
  }
}
