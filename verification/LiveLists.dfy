/**
 * The list of live slots as a sequence, newest first, together with creation stamps.  The linked
 * list of src/util.c is proved to represent such a sequence; everything said about runs of the
 * proxy is said about the sequence.
 */
module LiveLists {
  import opened Bytes

  /** The null pointer; other pointers into the pool are slot indices. */
  const NULL := -1

  /** `l` without the members of `drop`, in the same order. */
  function Sieve(l: seq<int>, drop: set<int>): (r: seq<int>)
    ensures |r| <= |l|
    ensures forall x :: x in r <==> x in l && x !in drop
  {
    if l == [] then []
    else if l[0] in drop then Sieve(l[1..], drop)
    else [l[0]] + Sieve(l[1..], drop)
  }

  /** Strictly newest to oldest; distinct stamps make the members distinct as well. */
  ghost predicate Descending(l: seq<int>, stamp: seq<nat>) {
    && (forall p :: 0 <= p < |l| ==> 0 <= l[p] < |stamp|)
    && (forall p, q :: 0 <= p < q < |l| ==> stamp[l[p]] > stamp[l[q]])
  }

  lemma DescendingHead(l: seq<int>, stamp: seq<nat>)
    requires Descending(l, stamp) && l != []
    ensures Descending(l[1..], stamp)
    ensures forall x :: x in l[1..] ==> stamp[x] < stamp[l[0]]
    ensures l[0] !in l[1..]
  {
  }

  lemma Prepend(x: int, l: seq<int>, stamp: seq<nat>)
    requires Descending(l, stamp) && 0 <= x < |stamp| && forall k :: 0 <= k < |l| ==> stamp[l[k]] < stamp[x]
    ensures Descending([x] + l, stamp)
  {
    var r := [x] + l;
    assert forall k :: 1 <= k < |r| ==> r[k] == l[k - 1];
  }

  lemma {:induction false} SieveDescends(l: seq<int>, drop: set<int>, stamp: seq<nat>)
    requires Descending(l, stamp)
    ensures Descending(Sieve(l, drop), stamp)
  {
    if l != [] {
      DescendingHead(l, stamp);
      SieveDescends(l[1..], drop, stamp);
      if l[0] !in drop {
        Prepend(l[0], Sieve(l[1..], drop), stamp);
      }
    }
  }

  /** A new slot with the newest stamp goes in front. */
  lemma ConsDescends(k: int, l: seq<int>, stamp: seq<nat>, t: nat)
    requires Descending(l, stamp) && 0 <= k < |stamp| && k !in l
    requires forall x :: x in l ==> stamp[x] < t
    ensures Descending([k] + l, stamp[k := t])
  {
    var l' := [k] + l;
    var s' := stamp[k := t];
    forall p | 0 < p < |l'|
      ensures l'[p] in l && s'[l'[p]] == stamp[l[p - 1]]
    {
      assert l'[p] == l[p - 1];
    }
  }

  lemma {:induction false} SieveNothing(l: seq<int>, drop: set<int>)
    requires forall k :: 0 <= k < |l| ==> l[k] !in drop
    ensures Sieve(l, drop) == l
  {
    if l != [] {
      SieveNothing(l[1..], drop);
      assert l == [l[0]] + l[1..];
    }
  }

  /** The null pointer is in no list. */
  lemma SieveNull(l: seq<int>, stamp: seq<nat>)
    requires Descending(l, stamp)
    ensures Sieve(l, {NULL}) == l
  {
    forall k | 0 <= k < |l|
      ensures l[k] !in {NULL}
    {
      assert 0 <= l[k];
    }
    SieveNothing(l, {NULL});
  }

  lemma {:induction false} SieveEverything(l: seq<int>, drop: set<int>)
    requires forall k :: 0 <= k < |l| ==> l[k] in drop
    ensures Sieve(l, drop) == []
  {
    if l != [] {
      SieveEverything(l[1..], drop);
    }
  }

  lemma {:induction false} SieveTwice(l: seq<int>, a: set<int>, b: set<int>)
    ensures Sieve(Sieve(l, a), b) == Sieve(l, a + b)
  {
    if l != [] {
      SieveTwice(l[1..], a, b);
    }
  }

  lemma Associate<T>(a: seq<T>, b: seq<T>, c: seq<T>)
    ensures a + (b + c) == (a + b) + c
  {
  }

  lemma DropAt(l: seq<int>, k: nat)
    requires 0 < k < |l|
    ensures l[1..][k - 1] == l[k]
    ensures [l[0]] + (l[1..][..k - 1] + l[1..][k..]) == l[..k] + l[k + 1..]
  {
  }

  /** Unlinking the member at position `k`. */
  lemma {:induction false} SieveAt(l: seq<int>, k: nat, stamp: seq<nat>)
    requires k < |l| && Descending(l, stamp)
    ensures Sieve(l, {l[k]}) == l[..k] + l[k + 1..]
  {
    DescendingHead(l, stamp);
    var t := l[1..];
    if k == 0 {
      SieveNothing(t, {l[0]});
    } else {
      SieveAt(t, k - 1, stamp);
      DropAt(l, k);
      assert l[k] != l[0];
    }
  }

  // ---------------------------------------------------------------------------------------------
  // Walking
  // ---------------------------------------------------------------------------------------------

  /** The part of the list from `x` on. */
  function From(l: seq<int>, x: int): (r: seq<int>)
    ensures |r| <= |l|
    ensures x in l ==> r != [] && r[0] == x
    ensures x !in l ==> r == []
    ensures forall y :: y in r ==> y in l
  {
    if l == [] then [] else if l[0] == x then l else From(l[1..], x)
  }

  /** The successor of `x`, as its `next` pointer gives it. */
  function NextOf(l: seq<int>, x: int): (n: int)
    ensures n != NULL ==> n in l
  {
    if |From(l, x)| > 1 then From(l, x)[1] else NULL
  }

  lemma {:induction false} FromAt(l: seq<int>, k: nat, stamp: seq<nat>)
    requires k < |l| && Descending(l, stamp)
    ensures From(l, l[k]) == l[k..]
  {
    if k > 0 {
      DescendingHead(l, stamp);
      FromAt(l[1..], k - 1, stamp);
    }
  }

  lemma NextAt(l: seq<int>, k: nat, stamp: seq<nat>)
    requires k < |l| && Descending(l, stamp)
    ensures NextOf(l, l[k]) == if k + 1 < |l| then l[k + 1] else NULL
  {
    FromAt(l, k, stamp);
  }

  lemma FromNext(l: seq<int>, x: int, stamp: seq<nat>)
    requires Descending(l, stamp) && x in l
    ensures From(l, NextOf(l, x)) == From(l, x)[1..]
    ensures NextOf(l, x) == NULL <==> From(l, x) == [x]
  {
    var k :| 0 <= k < |l| && l[k] == x;
    FromAt(l, k, stamp);
    if k + 1 < |l| {
      FromAt(l, k + 1, stamp);
    }
  }

  lemma {:induction false} FromSieve(l: seq<int>, x: int, drop: set<int>)
    requires x !in drop
    ensures From(Sieve(l, drop), x) == Sieve(From(l, x), drop)
  {
    if l != [] && l[0] != x {
      FromSieve(l[1..], x, drop);
    }
  }

  lemma FromCons(k: int, l: seq<int>, x: int)
    requires k != x
    ensures From([k] + l, x) == From(l, x)
  {
    assert ([k] + l)[1..] == l;
  }

  /** A part of the list from some member on is in the same order. */
  lemma {:induction false} FromDescends(l: seq<int>, x: int, stamp: seq<nat>)
    requires Descending(l, stamp)
    ensures Descending(From(l, x), stamp)
  {
    if l != [] && l[0] != x {
      FromDescends(l[1..], x, stamp);
    }
  }

  // ---------------------------------------------------------------------------------------------
  // Searching
  // ---------------------------------------------------------------------------------------------

  /** The last member of `l` that is a candidate, or NULL. */
  function LastOf(l: seq<int>, candidates: set<int>): (r: int)
    ensures r != NULL ==> r in l && r in candidates
    ensures r == NULL && NULL !in candidates ==> forall x :: x in l ==> x !in candidates
  {
    if l == [] then NULL
    else
      var n := |l| - 1;
      if l[n] in candidates then l[n] else
        assert l == l[..n] + [l[n]];
        LastOf(l[..n], candidates)
  }

  lemma LastStep(l: seq<int>, k: nat, candidates: set<int>)
    requires k < |l|
    ensures LastOf(l[..k + 1], candidates) == if l[k] in candidates then l[k] else LastOf(l[..k], candidates)
  {
    assert l[..k + 1][..k] == l[..k];
  }

  lemma {:induction false} LastIsOldest(l: seq<int>, candidates: set<int>, stamp: seq<nat>)
    requires Descending(l, stamp)
    ensures var r := LastOf(l, candidates);
      r != NULL ==> r in l && forall x :: x in l && x in candidates ==> stamp[r] <= stamp[x]
  {
    if l != [] {
      var n := |l| - 1;
      if l[n] !in candidates {
        assert l == l[..n] + [l[n]];
        LastIsOldest(l[..n], candidates, stamp);
      }
    }
  }

  /** The lowest slot from `k` on that is not in the list, or NULL when all of them are. */
  function FreeFrom(live: seq<int>, k: nat, size: nat): (r: int)
    requires k <= size
    ensures r == NULL ==> forall i :: k <= i < size ==> i in live
    ensures r != NULL ==> k <= r < size && r !in live && forall i :: k <= i < r ==> i in live
    decreases size - k, |live|
  {
    if k == size then NULL else if k !in live then k else FreeFrom(live, k + 1, size)
  }

  /** No list of distinct slots is longer than the pool. */
  lemma LengthBounded(l: seq<int>, stamp: seq<nat>)
    requires Descending(l, stamp)
    ensures |l| <= |stamp|
  {
    var members := set x | x in l;
    var slots := Below(|stamp|);
    CountMembers(l, stamp);
    assert |slots| == |slots * members| + |slots - members|;
    assert slots * members == members;
  }

  lemma {:induction false} CountMembers(l: seq<int>, stamp: seq<nat>)
    requires Descending(l, stamp)
    ensures |set x | x in l| == |l|
  {
    if l != [] {
      DescendingHead(l, stamp);
      CountMembers(l[1..], stamp);
      assert (set x | x in l) == (set x | x in l[1..]) + {l[0]};
    }
  }
}
