/** Job objects and the priority queue with lazy deletion, on a binary heap.
  */
module PriorityQueues {
  import opened ChannelJobs

  /** A job as the channels see it. Only `eta` changes after creation. */
  class ChannelJob {
    const uuid: nat
    const key: Key
    var eta: int

    constructor (uuid: nat, key: Key, eta: int)
      ensures this.uuid == uuid && this.key == key && this.eta == eta
    {
      this.uuid := uuid;
      this.key := key;
      this.eta := eta;
    }
  }

  predicate Less(a: ChannelJob, b: ChannelJob)
    reads a, b
  {
    Before(a.eta, a.key, b.eta, b.key)
  }

  // ------------------------------------------------- the binary heap (`heapq`)

  function Up(i: int): int { (i - 1) / 2 }

  ghost predicate HeapOrdered(h: seq<ChannelJob>)
    reads h
  {
    forall i {:trigger Up(i)} :: 0 < i < |h| ==> !Less(h[i], h[Up(i)])
  }

  /** Heap order except between position `k` and its parent, while the children
    * of `k` already fit under that parent. */
  ghost predicate OrderedButUp(h: seq<ChannelJob>, k: nat)
    reads h
  {
    && (forall i {:trigger Up(i)} :: 0 < i < |h| && i != k ==> !Less(h[i], h[Up(i)]))
    && forall i {:trigger Up(i)} :: 0 < i < |h| && Up(i) == k && k > 0 ==> !Less(h[i], h[Up(k)])
  }

  /** Heap order except between position `k` and its children, which already fit
    * under the parent of `k`. */
  ghost predicate OrderedButDown(h: seq<ChannelJob>, k: nat)
    reads h
  {
    && (forall i {:trigger Up(i)} :: 0 < i < |h| && Up(i) != k ==> !Less(h[i], h[Up(i)]))
    && forall i {:trigger Up(i)} :: 0 < i < |h| && Up(i) == k && 0 < k < |h| ==> !Less(h[i], h[Up(k)])
  }

  function Swap(h: seq<ChannelJob>, i: nat, k: nat): (h': seq<ChannelJob>)
    requires i < |h| && k < |h|
    ensures |h'| == |h| && multiset(h') == multiset(h)
  {
    h[i := h[k]][k := h[i]]
  }

  lemma {:induction false} RootIsLeast(h: seq<ChannelJob>, i: nat)
    requires i < |h| && HeapOrdered(h)
    ensures !Less(h[i], h[0])
  {
    if i > 0 {
      RootIsLeast(h, Up(i));
      BeforeIsStrictWeakOrder(h[i].eta, h[i].key, h[Up(i)].eta, h[Up(i)].key, h[0].eta, h[0].key);
    }
  }

  /** Push a new last entry up to its place. */
  method SiftUp(h0: seq<ChannelJob>, pos: nat) returns (h: seq<ChannelJob>)
    requires pos < |h0| && OrderedButUp(h0, pos)
    ensures HeapOrdered(h) && multiset(h) == multiset(h0)
  {
    h := h0;
    var k := pos;
    while k > 0
      invariant 0 <= k < |h| == |h0| && multiset(h) == multiset(h0)
      invariant OrderedButUp(h, k)
    {
      var p := Up(k);
      if !Less(h[k], h[p]) {
        return;
      }
      SwapUp(h, k);
      h := Swap(h, k, p);
      k := p;
    }
  }

  lemma SwapUp(h: seq<ChannelJob>, k: nat)
    requires 0 < k < |h| && OrderedButUp(h, k) && Less(h[k], h[Up(k)])
    ensures OrderedButUp(Swap(h, k, Up(k)), Up(k))
  {
    var p := Up(k);
    var g := Swap(h, k, p);
    forall i | 0 < i < |g| && i != p ensures !Less(g[i], g[Up(i)]) {
      if Up(i) == p && i != k {
        BeforeIsStrictWeakOrder(h[i].eta, h[i].key, h[p].eta, h[p].key, h[k].eta, h[k].key);
      }
    }
    forall i | 0 < i < |g| && Up(i) == p && p > 0 ensures !Less(g[i], g[Up(p)]) {
      if i != k {
        BeforeIsStrictWeakOrder(h[i].eta, h[i].key, h[p].eta, h[p].key, h[Up(p)].eta, h[Up(p)].key);
      }
    }
  }

  ghost predicate SmallestChild(h: seq<ChannelJob>, k: nat, c: nat)
    reads h
  {
    && k < c < |h| && Up(c) == k
    && forall i {:trigger Up(i)} :: 0 < i < |h| && Up(i) == k ==> !Less(h[i], h[c])
  }

  /** The smaller child of `k` (the right one when they are equivalent). */
  method PickChild(h: seq<ChannelJob>, k: nat) returns (c: nat)
    requires 2 * k + 1 < |h|
    ensures SmallestChild(h, k, c)
  {
    c := 2 * k + 1;
    if c + 1 < |h| && !Less(h[c], h[c+1]) {
      c := c + 1;
    }
    forall i | 0 < i < |h| && Up(i) == k ensures !Less(h[i], h[c]) {
      assert i == 2 * k + 1 || i == 2 * k + 2;
    }
  }

  /** Push an entry put at the root down to its place. */
  method SiftDown(h0: seq<ChannelJob>) returns (h: seq<ChannelJob>)
    requires |h0| > 0 && OrderedButDown(h0, 0)
    ensures HeapOrdered(h) && multiset(h) == multiset(h0)
  {
    h := h0;
    var k := 0;
    while 2 * k + 1 < |h|
      invariant 0 <= k < |h| == |h0| && multiset(h) == multiset(h0)
      invariant OrderedButDown(h, k)
      decreases |h| - k
    {
      var c := PickChild(h, k);
      if !Less(h[c], h[k]) {
        SmallestChildFits(h, k, c);
        return;
      }
      SwapDown(h, k, c);
      h := Swap(h, k, c);
      k := c;
    }
  }

  lemma SmallestChildFits(h: seq<ChannelJob>, k: nat, c: nat)
    requires OrderedButDown(h, k) && SmallestChild(h, k, c) && !Less(h[c], h[k])
    ensures HeapOrdered(h)
  {
    forall i | 0 < i < |h| ensures !Less(h[i], h[Up(i)]) {
      if Up(i) == k {
        BeforeIsStrictWeakOrder(h[i].eta, h[i].key, h[c].eta, h[c].key, h[k].eta, h[k].key);
      }
    }
  }

  lemma SwapDown(h: seq<ChannelJob>, k: nat, c: nat)
    requires OrderedButDown(h, k) && SmallestChild(h, k, c) && Less(h[c], h[k])
    ensures OrderedButDown(Swap(h, k, c), c)
  {
    var g := Swap(h, k, c);
    forall i | 0 < i < |g| && Up(i) != c ensures !Less(g[i], g[Up(i)]) {
    }
    forall i | 0 < i < |g| && Up(i) == c && 0 < c ensures !Less(g[i], g[Up(c)]) {
      assert i != k && i != c;
    }
  }

  /** `heappush`. */
  method HeapPush(h0: seq<ChannelJob>, o: ChannelJob) returns (h: seq<ChannelJob>)
    requires HeapOrdered(h0)
    ensures HeapOrdered(h) && multiset(h) == multiset(h0) + multiset{o}
  {
    h := SiftUp(h0 + [o], |h0|);
  }

  /** `heappop` on a non-empty heap. */
  method HeapPop(h0: seq<ChannelJob>) returns (o: ChannelJob, h: seq<ChannelJob>)
    requires |h0| > 0 && HeapOrdered(h0)
    ensures o == h0[0] && HeapOrdered(h) && multiset(h) + multiset{o} == multiset(h0)
  {
    o := h0[0];
    var n := |h0| - 1;
    assert h0 == h0[..n] + [h0[n]];
    if n == 0 {
      h := [];
    } else {
      var g := h0[..n];
      assert g == [h0[0]] + g[1..];
      var moved := g[0 := h0[n]];
      assert moved == [h0[n]] + g[1..];
      h := SiftDown(moved);
    }
  }

  // -------------------------------------------------------- the priority queue

  lemma NothingKnown(h: seq<ChannelJob>, known: set<ChannelJob>)
    requires h == [] && multiset(h) == multiset(known)
    ensures known == {}
  {
    assert forall o :: o in known ==> o in multiset(known);
  }

  /** `PriorityQueue`: `known` are all entries of the heap, `removed` those that
    * were removed but are still in the heap. */
  class PriorityQueue {
    var heap: seq<ChannelJob>
    var known: set<ChannelJob>
    var removed: set<ChannelJob>
    ghost var live: set<ChannelJob>  // the abstract content

    /** Each known object is in the heap exactly once, and the heap is ordered. */
    ghost predicate Valid()
      reads this, known
    {
      && multiset(heap) == multiset(known)
      && removed <= known && live == known - removed
      && (forall o :: o in heap ==> o in known)
      && HeapOrdered(heap)
    }

    constructor ()
      ensures Valid() && known == {} && live == {}
    {
      heap := [];
      known := {};
      removed := {};
      live := {};
    }

    method Length() returns (n: nat)
      requires Valid()
      ensures n == |live|
    {
      assert |known| == |known - removed| + |removed|;
      n := |known| - |removed|;
    }

    method Contains(o: ChannelJob) returns (b: bool)
      requires Valid()
      ensures b <==> o in live
    {
      b := o in known && o !in removed;
    }

    /** A new entry in the heap. */
    method PushNew(o: ChannelJob)
      requires Valid() && o !in known
      modifies this
      ensures Valid() && live == old(live) + {o} && known == old(known) + {o}
    {
      known, live := known + {o}, live + {o};
      heap := HeapPush(heap, o);
      assert multiset(known) == multiset(old(known)) + multiset{o};
      assert forall x :: x in heap ==> x in multiset(heap);
    }

    /** `add`: also takes back an earlier removal; a no-op on a live object. */
    method Add(o: ChannelJob)
      requires Valid()
      modifies this
      ensures Valid() && live == old(live) + {o} && known == old(known) + {o}
    {
      if o in removed {
        removed, live := removed - {o}, live + {o};
      }
      if o in known {
        return;
      }
      PushNew(o);
    }

    method Remove(o: ChannelJob)
      requires Valid()
      modifies this
      ensures Valid() && live == old(live) - {o} && known == old(known)
    {
      if o in known && o !in removed {
        removed := removed + {o};
        live := live - {o};
      }
    }

    /** Take the root out of the heap. */
    method PopRoot() returns (o: ChannelJob)
      requires Valid() && heap != []
      modifies `heap, `known
      ensures |heap| < |old(heap)|
      ensures o == old(heap)[0] && o in old(known) && known == old(known) - {o}
      ensures multiset(heap) == multiset(known)
      ensures forall x :: x in heap ==> x in known
      ensures HeapOrdered(heap)
      ensures forall x :: x in old(known) ==> !Less(x, o)
    {
      ghost var h0 := heap;
      o, heap := HeapPop(heap);
      assert o in h0;
      assert |multiset(h0)| == |h0| && |multiset(heap)| == |heap|;
      known := known - {o};
      assert multiset(known) == multiset(old(known)) - multiset{o};
      assert forall x :: x in heap ==> x in multiset(heap);
      forall x | x in old(known) ensures !Less(x, o) {
        assert x in multiset(h0);
        var i :| 0 <= i < |h0| && h0[i] == x;
        RootIsLeast(h0, i);
      }
    }

    /** One turn of `pop`: an entry removed earlier is dropped for good, a live one is
      * taken out. */
    method PopEntry() returns (r: Option<ChannelJob>)
      requires Valid() && heap != []
      modifies this
      ensures Valid() && |heap| < |old(heap)| && known <= old(known)
      ensures r.None? <==> old(heap)[0] in old(removed)
      ensures r.None? ==> live == old(live)
      ensures r.Some? ==> r.value in old(live) && live == old(live) - {r.value} && r.value !in known
      ensures r.Some? ==> forall x :: x in old(live) ==> !Less(x, r.value)
    {
      var o := PopRoot();
      if o in removed {
        removed := removed - {o};
        return None;
      }
      live := live - {o};
      return Some(o);
    }

    /** `pop`: a least live object leaves the queue; None exactly when there is
      * none. Entries removed earlier may leave the heap on the way. */
    method Pop() returns (r: Option<ChannelJob>)
      requires Valid()
      modifies this
      ensures Valid()
      ensures r.None? <==> old(live) == {}
      ensures r.None? ==> live == {}
      ensures r.Some? ==>
                && r.value in old(live) && live == old(live) - {r.value}
                && (forall x :: x in old(live) ==> !Less(x, r.value))
                && r.value !in known
      ensures known <= old(known)
    {
      while heap != []
        invariant Valid() && live == old(live) && known <= old(known)
        decreases |heap|
      {
        r := PopEntry();
        if r.Some? {
          return r;
        }
      }
      NothingKnown(heap, known);
      return None;
    }

    /** `[0]`: a least live object, which stays in the queue (None stands for the
      * IndexError). The abstract content does not change. */
    method Peek() returns (r: Option<ChannelJob>)
      requires Valid()
      modifies this
      ensures Valid() && live == old(live) && known <= old(known)
      ensures r.None? <==> live == {}
      ensures r.Some? ==> r.value in live && forall x :: x in live ==> !Less(x, r.value)
    {
      while heap != []
        invariant Valid() && live == old(live) && known <= old(known)
        decreases |heap|
      {
        var o := heap[0];
        if o in removed {
          var _ := PopEntry();
        } else {
          assert o in live;
          forall x | x in live ensures !Less(x, o) {
            assert x in multiset(heap);
            var i :| 0 <= i < |heap| && heap[i] == x;
            RootIsLeast(heap, i);
          }
          return Some(o);
        }
      }
      NothingKnown(heap, known);
      return None;
    }
  }
}
