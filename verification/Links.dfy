/** The doubly linked list of src/util.c, threaded through the slots of the pool by index. */
module Links {
  import opened LiveLists
  import opened Streams

  /** One element of stream_pool: the list links and the rest of the record. */
  datatype Slot = Slot(taken: bool, prev: int, next: int, stream: Stream)

  function Nth(live: seq<int>, k: int): int {
    if 0 <= k < |live| then live[k] else NULL
  }

  predicate LinkAt(pool: seq<Slot>, live: seq<int>, k: int)
    requires |pool| == POOL_SIZE && 0 <= k < |live| && IsSlot(live[k])
  {
    pool[live[k]].next == Nth(live, k + 1) && pool[live[k]].prev == Nth(live, k - 1)
  }

  ghost predicate DistinctSlots(live: seq<int>) {
    && (forall k :: 0 <= k < |live| ==> IsSlot(live[k]))
    && (forall k, m :: 0 <= k < m < |live| ==> live[k] != live[m])
  }

  /** `next` and `prev` run through exactly the members of `live`, in order, between head and tail. */
  ghost predicate Threaded(pool: seq<Slot>, live: seq<int>, head: int, tail: int) {
    && |pool| == POOL_SIZE && DistinctSlots(live)
    && head == Nth(live, 0) && tail == Nth(live, |live| - 1)
    && (forall k :: 0 <= k < |live| ==> LinkAt(pool, live, k))
  }

  /** What insert_stream writes: a new head in front of the old one. */
  function LinkHead(pool: seq<Slot>, i: int, head: int, stream: Stream): seq<Slot>
    requires |pool| == POOL_SIZE && IsSlot(i) && (head == NULL || IsSlot(head))
  {
    var p := pool[i := Slot(true, NULL, head, stream)];
    if head == NULL then p else p[head := p[head].(prev := i)]
  }

  lemma LinkHeadAt(pool: seq<Slot>, live: seq<int>, head: int, tail: int, i: int, stream: Stream, k: nat)
    requires Threaded(pool, live, head, tail) && IsSlot(i) && i !in live && k <= |live|
    ensures IsSlot(([i] + live)[k]) && LinkAt(LinkHead(pool, i, head, stream), [i] + live, k)
  {
    if k > 0 {
      assert LinkAt(pool, live, k - 1);
      assert live[k - 1] in live;
      assert k > 1 ==> live[0] != live[k - 1];
    }
  }

  lemma LinkHeadThreads(pool: seq<Slot>, live: seq<int>, head: int, tail: int, i: int, stream: Stream)
    requires Threaded(pool, live, head, tail) && IsSlot(i) && i !in live
    ensures Threaded(LinkHead(pool, i, head, stream), [i] + live, i, if head == NULL then i else tail)
  {
    var l := [i] + live;
    forall k | 0 <= k < |l|
      ensures IsSlot(l[k]) && LinkAt(LinkHead(pool, i, head, stream), l, k)
    {
      LinkHeadAt(pool, live, head, tail, i, stream, k);
    }
    forall k, m | 0 <= k < m < |l|
      ensures l[k] != l[m]
    {
      assert l[m] == live[m - 1] && l[m] in live;
    }
  }

  /** What remove_stream writes to the neighbours in the list. */
  function Unlink(pool: seq<Slot>, i: int): seq<Slot>
    requires |pool| == POOL_SIZE && IsSlot(i)
    requires pool[i].next == NULL || IsSlot(pool[i].next)
    requires pool[i].prev == NULL || IsSlot(pool[i].prev)
  {
    var p := if pool[i].next == NULL then pool else pool[pool[i].next := pool[pool[i].next].(prev := pool[i].prev)];
    if pool[i].prev == NULL then p else p[pool[i].prev := p[pool[i].prev].(next := pool[i].next)]
  }

  function Skip(live: seq<int>, k: nat): (l: seq<int>)
    requires k < |live|
    ensures |l| == |live| - 1
    ensures forall m :: 0 <= m < |l| ==> l[m] == live[if m < k then m else m + 1]
  {
    live[..k] + live[k + 1..]
  }

  lemma UnlinkAt(pool: seq<Slot>, live: seq<int>, head: int, tail: int, k: nat, m: nat)
    requires Threaded(pool, live, head, tail) && k < |live| && m < |live| - 1
    requires var i := live[k]; (pool[i].next == NULL || IsSlot(pool[i].next)) && (pool[i].prev == NULL || IsSlot(pool[i].prev))
    ensures IsSlot(Skip(live, k)[m]) && LinkAt(Unlink(pool, live[k]), Skip(live, k), m)
  {
    assert LinkAt(pool, live, k);
    assert LinkAt(pool, live, if m < k then m else m + 1);
  }

  lemma UnlinkThreads(pool: seq<Slot>, live: seq<int>, head: int, tail: int, k: nat)
    requires Threaded(pool, live, head, tail) && k < |live|
    ensures var i := live[k];
      && (pool[i].next == NULL || IsSlot(pool[i].next)) && (pool[i].prev == NULL || IsSlot(pool[i].prev))
      && Threaded(Unlink(pool, i), Skip(live, k),
                  if i == head then pool[i].next else head, if i == tail then pool[i].prev else tail)
  {
    var l := Skip(live, k);
    assert LinkAt(pool, live, k);
    forall m | 0 <= m < |l|
      ensures IsSlot(l[m]) && LinkAt(Unlink(pool, live[k]), l, m)
    {
      UnlinkAt(pool, live, head, tail, k, m);
    }
  }

  /** Changing anything but the links keeps the thread. */
  lemma SameLinksThread(pool: seq<Slot>, other: seq<Slot>, live: seq<int>, head: int, tail: int)
    requires Threaded(pool, live, head, tail) && |other| == POOL_SIZE
    requires forall i :: IsSlot(i) ==> other[i].next == pool[i].next && other[i].prev == pool[i].prev
    ensures Threaded(other, live, head, tail)
  {
    forall k | 0 <= k < |live|
      ensures LinkAt(other, live, k)
    {
      assert LinkAt(pool, live, k);
    }
  }
}
