/**
 * A max-priority queue of integers kept as a binary min-heap of their negations,
 * with the two heap operations it relies on.
 */
module PriorityQueue {
  import opened Wrappers

  /** The index of the parent of heap slot `i`. */
  function Parent(i: int): int {
    (i - 1) / 2
  }

  /** Every element is at least its parent, so the smallest sits at index 0. */
  ghost predicate IsMinHeap(heap: seq<int>) {
    forall i {:trigger Parent(i)} :: 0 < i < |heap| ==> heap[Parent(i)] <= heap[i]
  }

  lemma {:induction false} RootAtMost(heap: seq<int>, i: int)
    requires IsMinHeap(heap) && 0 <= i < |heap|
    ensures heap[0] <= heap[i]
  {
    if i > 0 {
      RootAtMost(heap, Parent(i));
    }
  }

  /** The root of a heap is its smallest element. */
  lemma RootIsMinimum(heap: seq<int>)
    requires IsMinHeap(heap) && heap != []
    ensures forall x :: x in multiset(heap) ==> heap[0] <= x
  {
    forall x | x in multiset(heap) ensures heap[0] <= x {
      var i :| 0 <= i < |heap| && heap[i] == x;
      RootAtMost(heap, i);
    }
  }

  /** The slots whose parent is `k` are `2k + 1` and `2k + 2`. */
  lemma Children(k: int, i: int)
    requires 0 <= k && 0 < i
    ensures Parent(i) == k <==> i == 2 * k + 1 || i == 2 * k + 2
  {
  }

  /** Exchanges the elements at slots `a` and `b`. */
  function Swap(h: seq<int>, a: int, b: int): (r: seq<int>)
    requires 0 <= a < |h| && 0 <= b < |h|
    ensures |r| == |h| && multiset(r) == multiset(h)
    ensures r[a] == h[b] && r[b] == h[a]
    ensures forall i :: 0 <= i < |h| && i != a && i != b ==> r[i] == h[i]
  {
    h[a := h[b]][b := h[a]]
  }

  /** While an item rises: every slot but `k` is at least its parent, and `k`'s parent is at most `k`'s children. */
  ghost predicate RisingAt(h: seq<int>, k: int) {
    && 0 <= k < |h|
    && (forall i {:trigger Parent(i)} :: 0 < i < |h| && i != k ==> h[Parent(i)] <= h[i])
    && (k > 0 ==> forall i {:trigger Parent(i)} :: 0 < i < |h| && Parent(i) == k ==> h[Parent(k)] <= h[i])
  }

  lemma SwapUp(h: seq<int>, k: int)
    requires RisingAt(h, k) && k > 0 && h[Parent(k)] > h[k]
    ensures RisingAt(Swap(h, Parent(k), k), Parent(k))
  {
    var p := Parent(k);
    var s := Swap(h, p, k);
    forall i | 0 < i < |s| && i != p ensures s[Parent(i)] <= s[i] {
      if i != k && Parent(i) == p {
        assert h[Parent(i)] <= h[i];
      }
    }
    if p > 0 {
      forall i | 0 < i < |s| && Parent(i) == p ensures s[Parent(p)] <= s[i] {
        assert h[Parent(p)] <= h[p];
        if i != k {
          assert h[Parent(i)] <= h[i];
        }
      }
    }
  }

  lemma RisenToPlace(h: seq<int>, k: int)
    requires RisingAt(h, k) && (k == 0 || h[Parent(k)] <= h[k])
    ensures IsMinHeap(h)
  {
  }

  /** While an item sinks: every slot whose parent is not `k` is at least its parent, and `k`'s parent is at most `k`'s children. */
  ghost predicate SinkingAt(h: seq<int>, k: int) {
    && 0 <= k < |h|
    && (forall i {:trigger Parent(i)} :: 0 < i < |h| && Parent(i) != k ==> h[Parent(i)] <= h[i])
    && (k > 0 ==> forall i {:trigger Parent(i)} :: 0 < i < |h| && Parent(i) == k ==> h[Parent(k)] <= h[i])
  }

  lemma SwapDown(h: seq<int>, k: int, c: int)
    requires SinkingAt(h, k) && 0 < c < |h| && Parent(c) == k && h[c] < h[k]
    requires forall i {:trigger Parent(i)} :: 0 < i < |h| && Parent(i) == k ==> h[c] <= h[i]
    ensures SinkingAt(Swap(h, k, c), c)
  {
    var s := Swap(h, k, c);
    forall i | 0 < i < |s| && Parent(i) != c ensures s[Parent(i)] <= s[i] {
      if i == k {
        assert h[Parent(k)] <= h[c];
      }
    }
    forall i | 0 < i < |s| && Parent(i) == c ensures s[Parent(c)] <= s[i] {
      assert h[Parent(i)] <= h[i];
    }
  }

  lemma SunkToPlace(h: seq<int>, k: int)
    requires SinkingAt(h, k)
    requires forall i {:trigger Parent(i)} :: 0 < i < |h| && Parent(i) == k ==> h[k] <= h[i]
    ensures IsMinHeap(h)
  {
  }

  /** Adds `item` to a heap: append it, then swap it up past every larger parent. */
  method HeapPush(heap: seq<int>, item: int) returns (h: seq<int>)
    requires IsMinHeap(heap)
    ensures IsMinHeap(h)
    ensures multiset(h) == multiset(heap) + multiset{item}
  {
    h := heap + [item];
    var k := |heap|;
    forall i | 0 < i < |h| ensures Parent(i) != k {
      Children(k, i);
    }
    while k > 0 && h[Parent(k)] > h[k]
      invariant RisingAt(h, k)
      invariant multiset(h) == multiset(heap) + multiset{item}
      decreases k
    {
      SwapUp(h, k);
      h := Swap(h, Parent(k), k);
      k := Parent(k);
    }
    RisenToPlace(h, k);
  }

  /** The smaller of the children of slot `k`, which has at least one child. */
  function SmallerChild(h: seq<int>, k: int): (c: int)
    requires 0 <= k && 2 * k + 1 < |h|
    ensures 0 < c < |h| && Parent(c) == k
    ensures forall i {:trigger Parent(i)} :: 0 < i < |h| && Parent(i) == k ==> h[c] <= h[i]
  {
    var left := 2 * k + 1;
    var c := if left + 1 < |h| && h[left + 1] < h[left] then left + 1 else left;
    assert forall i {:trigger Parent(i)} :: 0 < i < |h| && Parent(i) == k ==> i == left || i == left + 1 by {
      forall i | 0 < i < |h| && Parent(i) == k ensures i == left || i == left + 1 {
        Children(k, i);
      }
    }
    c
  }

  /** Swaps the element at the root down past every smaller child until it is in place. */
  method SiftDown(start: seq<int>) returns (h: seq<int>)
    requires start != [] && SinkingAt(start, 0)
    ensures IsMinHeap(h) && multiset(h) == multiset(start)
  {
    h := start;
    var k := 0;
    while 2 * k + 1 < |h|
      invariant SinkingAt(h, k)
      invariant multiset(h) == multiset(start)
      decreases |h| - k
    {
      var child := SmallerChild(h, k);
      if h[k] <= h[child] {
        SunkToPlace(h, k);
        return;
      }
      SwapDown(h, k, child);
      h := Swap(h, k, child);
      k := child;
    }
    forall i | 0 < i < |h| ensures Parent(i) != k {
      Children(k, i);
    }
  }

  /**
   * Removes the smallest element of a non-empty heap: the last element takes the root's
   * place and sinks to where it belongs.
   */
  method HeapPop(heap: seq<int>) returns (smallest: int, h: seq<int>)
    requires IsMinHeap(heap) && heap != []
    ensures smallest in multiset(heap) && forall x :: x in multiset(heap) ==> smallest <= x
    ensures IsMinHeap(h)
    ensures multiset(h) == multiset(heap) - multiset{smallest}
  {
    RootIsMinimum(heap);
    smallest := heap[0];
    var n := |heap| - 1;
    var last := heap[n];
    h := heap[..n];
    assert heap == h + [last];
    if h == [] {
      return;
    }
    var moved := h[0 := last];
    assert multiset(moved) == multiset(heap) - multiset{smallest} by {
      assert h == [smallest] + h[1..] && moved == [last] + h[1..];
    }
    forall i | 0 < i < |moved| && Parent(i) != 0 ensures moved[Parent(i)] <= moved[i] {
      assert heap[Parent(i)] <= heap[i];
    }
    h := SiftDown(moved);
  }

  /** `items` holds each `x` as often as `negated` holds `-x`. */
  ghost predicate Negated(items: multiset<int>, negated: multiset<int>) {
    forall x :: items[x] == negated[-x]
  }

  /** Removing the smallest negated value removes the largest item. */
  lemma NegatedRemove(items: multiset<int>, negated: multiset<int>, smallest: int)
    requires Negated(items, negated)
    requires smallest in negated && forall y :: y in negated ==> smallest <= y
    ensures -smallest in items && forall x :: x in items ==> x <= -smallest
    ensures Negated(items - multiset{-smallest}, negated - multiset{smallest})
  {
    assert items[-smallest] == negated[smallest];
    forall x | x in items ensures x <= -smallest {
      assert negated[-x] == items[x];
    }
  }

  /** `MaxPriorityQueue`: pushes and pops integers, largest first. */
  class MaxPriorityQueue {
    /** The negated items, as a min-heap. */
    var heap: seq<int>
    /** The items the queue holds. */
    ghost var items: multiset<int>

    ghost predicate Valid()
      reads this
    {
      IsMinHeap(heap) && Negated(items, multiset(heap))
    }

    constructor ()
      ensures Valid() && items == multiset{}
    {
      heap := [];
      items := multiset{};
    }

    /** Adds one occurrence of `item`. */
    method Push(item: int)
      requires Valid()
      modifies this
      ensures Valid()
      ensures items == old(items) + multiset{item}
    {
      heap := HeapPush(heap, -item);
      items := items + multiset{item};
    }

    /** Removes and returns one occurrence of the largest item; the queue must not be empty. */
    method Pop() returns (top: int)
      requires Valid() && items != multiset{}
      modifies this
      ensures Valid()
      ensures top in old(items) && forall x :: x in old(items) ==> x <= top
      ensures items == old(items) - multiset{top}
    {
      NonEmptyHeap();
      var smallest, rest := HeapPop(heap);
      top := -smallest;
      NegatedRemove(items, multiset(heap), smallest);
      ghost var remaining := items - multiset{top};
      assert Negated(remaining, multiset(rest));
      heap, items := rest, remaining;
      assert IsMinHeap(heap);
      assert Negated(items, multiset(heap));
    }

    /** The largest item without removing it, or `None` when the queue is empty. */
    function Peek(): (top: Option<int>)
      reads this
      requires Valid()
      ensures top.None? <==> items == multiset{}
      ensures top.Some? ==> top.value in items && forall x :: x in items ==> x <= top.value
    {
      NonEmptyHeap();
      if heap != [] then RootIsMinimum(heap); Some(-heap[0]) else None
    }

    function IsEmpty(): (empty: bool)
      reads this
      requires Valid()
      ensures empty <==> items == multiset{}
    {
      NonEmptyHeap();
      |heap| == 0
    }

    lemma NonEmptyHeap()
      requires Valid()
      ensures heap == [] <==> items == multiset{}
    {
      if heap != [] {
        assert items[-heap[0]] > 0;
      } else {
        assert forall x :: items[x] == 0;
      }
    }
  }
}
