/**
 * The proxy as the program keeps it: one array of slots threaded into a list, updated in place.
 * Every method is proved to take the abstract state where the specification says.
 */
module Proxies {
  import opened PollEvents
  import opened LiveLists
  import opened Socks
  import opened Streams
  import opened Handlers
  import opened BaseInvariant
  import opened Walks
  import opened Watching
  import opened Runs
  import opened Links

  /** The slots, the list running through them and the abstract state agree. */
  ghost predicate Represents(pool: seq<Slot>, head: int, tail: int, s: Sys) {
    && Shape(s) && Threaded(pool, s.live, head, tail)
    && forall i :: IsSlot(i) ==> pool[i].stream == s.st[i] && (pool[i].taken <==> i in s.live)
  }

  lemma StoreRepresents(pool: seq<Slot>, head: int, tail: int, s: Sys, i: int, x: Stream, t: Sys)
    requires Represents(pool, head, tail, s) && IsSlot(i)
    requires Shape(t) && t.live == s.live && t.st == s.st[i := x]
    ensures Represents(pool[i := pool[i].(stream := x)], head, tail, t)
  {
    SameLinksThread(pool, pool[i := pool[i].(stream := x)], s.live, head, tail);
  }

  lemma InsertRepresents(pool: seq<Slot>, head: int, tail: int, s: Sys, fd: int)
    requires Represents(pool, head, tail, s) && FreeSlot(s) != NULL
    ensures var i := FreeSlot(s);
      && (head == NULL || IsSlot(head))
      && Represents(LinkHead(pool, i, head, Blank(fd)), i, if head == NULL then i else tail, Insert(s, fd))
  {
    InsertShape(s, fd);
    LinkHeadThreads(pool, s.live, head, tail, FreeSlot(s), Blank(fd));
    InsertRecords(pool, head, s, fd);
  }

  lemma InsertRecords(pool: seq<Slot>, head: int, s: Sys, fd: int)
    requires Shape(s) && FreeSlot(s) != NULL && |pool| == POOL_SIZE && (head == NULL || IsSlot(head)) && head != FreeSlot(s)
    requires forall j :: IsSlot(j) ==> pool[j].stream == s.st[j] && (pool[j].taken <==> j in s.live)
    ensures var p, t := LinkHead(pool, FreeSlot(s), head, Blank(fd)), Insert(s, fd);
      forall j :: IsSlot(j) ==> p[j].stream == t.st[j] && (p[j].taken <==> j in t.live)
  {
  }

  /** The links of a listed slot lead to other slots, or nowhere. */
  lemma LinksOf(pool: seq<Slot>, head: int, tail: int, s: Sys, i: int) returns (k: nat)
    requires Represents(pool, head, tail, s) && i in s.live
    ensures k < |s.live| && s.live[k] == i
    ensures (pool[i].next == NULL || IsSlot(pool[i].next)) && (pool[i].prev == NULL || IsSlot(pool[i].prev))
    ensures pool[i].next != i && pool[i].prev != i
    ensures pool[i].next == Nth(s.live, k + 1) && pool[i].prev == Nth(s.live, k - 1)
  {
    k :| 0 <= k < |s.live| && s.live[k] == i;
    assert LinkAt(pool, s.live, k);
  }

  lemma BackLink(pool: seq<Slot>, head: int, tail: int, s: Sys, k: nat)
    requires Represents(pool, head, tail, s) && k < |s.live|
    ensures var i := s.live[k];
      i in s.live && IsSlot(i) && pool[i].prev == Nth(s.live, k - 1) && pool[i].stream == s.st[i]
  {
    assert LinkAt(pool, s.live, k) && s.live[k] in s.live;
  }

  lemma AbandonedStays(s: Sys, i: int)
    requires Shape(s) && i in s.live
    ensures var t := Abandon(s, i);
      Shape(t) && IsSlot(i) && i in t.live && t.st[i].fd == s.st[i].fd && t.os == s.os && t.evictions == s.evictions
  {
    AbandonShape(s, i);
  }

  /** The test force_cleanup makes is membership among the candidates. */
  lemma Qualifies(s: Sys, i: int, abandoned: bool, excl: int, candidates: set<int>)
    requires Shape(s) && i in s.live
    requires candidates == if abandoned then AbandonedExcept(s, excl) else PairedExcept(s, excl)
    ensures i in candidates <==>
              i != excl && if abandoned then s.st[i].abandoned else s.st[i].role == Client || s.st[i].role == Endpoint
  {
  }

  /** One step of the search from the tail. */
  lemma SeekStep(pool: seq<Slot>, head: int, tail: int, s: Sys, k: nat, abandoned: bool, excl: int, candidates: set<int>)
    requires Represents(pool, head, tail, s) && k < |s.live|
    requires candidates == if abandoned then AbandonedExcept(s, excl) else PairedExcept(s, excl)
    ensures var i := s.live[k];
      && i in s.live && IsSlot(i) && pool[i].prev == Nth(s.live, k - 1)
      && var x := pool[i].stream;
         LastOf(s.live[..k + 1], candidates) ==
           if i != excl && (if abandoned then x.abandoned else x.role == Client || x.role == Endpoint) then i
           else LastOf(s.live[..k], candidates)
  {
    BackLink(pool, head, tail, s, k);
    LastStep(s.live, k, candidates);
    Qualifies(s, s.live[k], abandoned, excl, candidates);
  }

  /** The record of a removed stream, and its slot. */
  function Freed(x: Slot): Slot {
    x.(taken := false, stream := x.stream.(fd := -1))
  }

  /** Unlinking writes links of other slots only. */
  lemma UnlinkRecords(pool: seq<Slot>, i: int)
    requires |pool| == POOL_SIZE && IsSlot(i)
    requires (pool[i].next == NULL || IsSlot(pool[i].next)) && (pool[i].prev == NULL || IsSlot(pool[i].prev))
    requires pool[i].next != i && pool[i].prev != i
    ensures Unlink(pool, i)[i] == pool[i]
    ensures forall j :: IsSlot(j) ==> Unlink(pool, i)[j].stream == pool[j].stream && Unlink(pool, i)[j].taken == pool[j].taken
  {
  }

  /** It makes no difference that the descriptor is closed before the slot is unlinked. */
  lemma UnlinkCommutes(pool: seq<Slot>, i: int, x: Slot)
    requires |pool| == POOL_SIZE && IsSlot(i)
    requires (pool[i].next == NULL || IsSlot(pool[i].next)) && (pool[i].prev == NULL || IsSlot(pool[i].prev))
    requires pool[i].next != i && pool[i].prev != i
    requires x == pool[i].(stream := pool[i].stream.(fd := -1))
    ensures Unlink(pool[i := x], i)[i := x.(taken := false)] == Unlink(pool, i)[i := Freed(pool[i])]
  {
  }

  lemma RemoveThreads(pool: seq<Slot>, head: int, tail: int, s: Sys, i: int, p: seq<Slot>)
    requires Represents(pool, head, tail, s) && i in s.live
    requires (pool[i].next == NULL || IsSlot(pool[i].next)) && (pool[i].prev == NULL || IsSlot(pool[i].prev))
    requires pool[i].next != i && pool[i].prev != i
    requires p == Unlink(pool, i)[i := Freed(pool[i])]
    ensures Threaded(p, Sieve(s.live, {i}), if i == head then pool[i].next else head, if i == tail then pool[i].prev else tail)
  {
    var k := LinksOf(pool, head, tail, s, i);
    SieveAt(s.live, k, s.stamp);
    assert Sieve(s.live, {i}) == Skip(s.live, k);
    UnlinkThreads(pool, s.live, head, tail, k);
    UnlinkRecords(pool, i);
    SameLinksThread(Unlink(pool, i), p, Skip(s.live, k),
                    if i == head then pool[i].next else head, if i == tail then pool[i].prev else tail);
  }

  lemma RemoveRepresents(pool: seq<Slot>, head: int, tail: int, s: Sys, i: int, p: seq<Slot>, head': int, tail': int)
    requires Represents(pool, head, tail, s) && i in s.live
    requires (pool[i].next == NULL || IsSlot(pool[i].next)) && (pool[i].prev == NULL || IsSlot(pool[i].prev))
    requires pool[i].next != i && pool[i].prev != i
    requires p == Unlink(pool, i)[i := Freed(pool[i])]
    requires head' == (if i == head then pool[i].next else head) && tail' == (if i == tail then pool[i].prev else tail)
    ensures Represents(p, head', tail', Remove(s, i))
  {
    RemoveShape(s, i);
    RemoveThreads(pool, head, tail, s, i, p);
    UnlinkRecords(pool, i);
    RemoveRecords(pool, s, i, p);
  }

  /** What the writes of remove_stream come to. */
  lemma RemovalWrites(pool: seq<Slot>, head: int, tail: int, s: Sys, i: int) returns (p: seq<Slot>)
    requires Represents(pool, head, tail, s) && i in s.live
    ensures IsSlot(i) && |pool| == POOL_SIZE
    ensures (pool[i].next == NULL || IsSlot(pool[i].next)) && (pool[i].prev == NULL || IsSlot(pool[i].prev))
    ensures pool[i].next != i && pool[i].prev != i
    ensures var closed := pool[i].(stream := pool[i].stream.(fd := -1));
      p == Unlink(pool[i := closed], i)[i := closed.(taken := false)]
    ensures Represents(p, if i == head then pool[i].next else head, if i == tail then pool[i].prev else tail, Remove(s, i))
  {
    var k := LinksOf(pool, head, tail, s, i);
    p := Unlink(pool, i)[i := Freed(pool[i])];
    UnlinkCommutes(pool, i, pool[i].(stream := pool[i].stream.(fd := -1)));
    RemoveRepresents(pool, head, tail, s, i, p, if i == head then pool[i].next else head, if i == tail then pool[i].prev else tail);
  }

  lemma RemoveRecords(pool: seq<Slot>, s: Sys, i: int, p: seq<Slot>)
    requires Shape(s) && i in s.live && |pool| == POOL_SIZE && |p| == POOL_SIZE
    requires forall j :: IsSlot(j) ==> pool[j].stream == s.st[j] && (pool[j].taken <==> j in s.live)
    requires forall j :: IsSlot(j) && j != i ==> p[j].stream == pool[j].stream && p[j].taken == pool[j].taken
    requires p[i] == Freed(pool[i]).(next := p[i].next, prev := p[i].prev)
    ensures forall j :: IsSlot(j) ==> p[j].stream == Remove(s, i).st[j] && (p[j].taken <==> j in Remove(s, i).live)
  {
  }

  /** A loop that has dealt with `done`, has `rest` before it, and is on its way from `s` to its purge. */
  ghost predicate Purging(t: Sys, done: seq<int>, rest: seq<int>, s: Sys, doomed: set<int>) {
    && Base(t) && t.live == done + rest && PartOf(rest, t)
    && Shape(s) && Purge(t, rest, doomed) == Purge(s, s.live, doomed)
  }

  lemma SplitAt(live: seq<int>, done: seq<int>, rest: seq<int>)
    requires live == done + rest && rest != []
    ensures var p := |done|;
      && p < |live| && live[p] == rest[0] && live[..p] == done && live[p + 1..] == rest[1..] && live[p..] == rest
    ensures live == (done + [rest[0]]) + rest[1..]
  {
    assert rest == [rest[0]] + rest[1..];
  }

  lemma ListSplit(live: seq<int>, done: seq<int>, rest: seq<int>, stamp: seq<nat>)
    requires Descending(live, stamp) && live == done + rest && rest != []
    ensures rest[0] in live && NextOf(live, rest[0]) == Nth(rest, 1)
    ensures Sieve(live, {rest[0]}) == done + rest[1..]
    ensures live == (done + [rest[0]]) + rest[1..]
  {
    SplitAt(live, done, rest);
    var p := |done|;
    assert Sieve(live, {rest[0]}) == done + rest[1..] by {
      SieveAt(live, p, stamp);
    }
    assert NextOf(live, rest[0]) == Nth(rest, 1) by {
      FromAt(live, p, stamp);
    }
  }

  /** Dealing with the next stream, whether it is removed or passed over. */
  lemma PurgeStep(t: Sys, done: seq<int>, rest: seq<int>, s: Sys, doomed: set<int>)
    requires Purging(t, done, rest, s, doomed) && rest != []
    ensures rest[0] in t.live && NextOf(t.live, rest[0]) == Nth(rest, 1)
    ensures t.st[rest[0]].fd >= 0 && t.st[rest[0]].fd in t.os.fds.open
    ensures if rest[0] in doomed then Purging(Remove(t, rest[0]), done, rest[1..], s, doomed)
            else Purging(t, done + [rest[0]], rest[1..], s, doomed)
    ensures Nth(rest[1..], 0) == Nth(rest, 1)
  {
    ListSplit(t.live, done, rest, t.stamp);
    DescendingHead(rest, t.stamp);
    RemoveConserves(t, rest[0], {});
    RemoveAgrees(t, rest[0], {});
    RemoveShape(t, rest[0]);
  }

  lemma PurgeEnd(t: Sys, done: seq<int>, rest: seq<int>, s: Sys, doomed: set<int>)
    requires Purging(t, done, rest, s, doomed) && Nth(rest, 0) == NULL
    ensures PartOf(s.live, s) && t == Purge(s, s.live, doomed)
  {
    assert rest == [];
  }

  lemma CountRepresents(pool: seq<Slot>, head: int, tail: int, s: Sys, n: nat)
    requires Represents(pool, head, tail, s)
    ensures Represents(pool, head, tail, s.(evictions := n))
  {
  }

  /** The doomed streams are the abandoned ones. */
  ghost predicate Marked(t: Sys, rest: seq<int>, doomed: set<int>)
    requires |t.st| == POOL_SIZE
  {
    AllSlots(rest) && forall k :: 0 <= k < |rest| ==> (t.st[rest[k]].abandoned <==> rest[k] in doomed)
  }

  lemma MarkedStep(t: Sys, rest: seq<int>, doomed: set<int>)
    requires Shape(t) && Marked(t, rest, doomed) && rest != []
    ensures t.st[rest[0]].abandoned <==> rest[0] in doomed
    ensures Marked(t, rest[1..], doomed)
    ensures rest[0] in t.live ==> Marked(Remove(t, rest[0]), rest[1..], doomed)
  {
  }

  lemma PurgeStart(s: Sys, doomed: set<int>)
    requires Base(s)
    ensures Purging(s, [], s.live, s, doomed)
    ensures doomed == AbandonedIn(s) ==> Marked(s, s.live, doomed)
  {
    assert s.live == [] + s.live;
  }

  ghost predicate Marking(t: Sys, done: seq<int>, rest: seq<int>, s: Sys) {
    && Shape(t) && t.live == done + rest && (forall x :: x in rest ==> x in t.live)
    && Shape(s) && MarkPending(t, rest) == MarkPending(s, s.live)
  }

  lemma MarkStep(t: Sys, done: seq<int>, rest: seq<int>, s: Sys)
    requires Marking(t, done, rest, s) && rest != []
    ensures rest[0] in t.live && IsSlot(rest[0]) && NextOf(t.live, rest[0]) == Nth(rest[1..], 0)
    ensures MarkOne(t, rest[0]).live == t.live
    ensures Marking(MarkOne(t, rest[0]), done + [rest[0]], rest[1..], s)
  {
    ListSplit(t.live, done, rest, t.stamp);
    AbandonShape(t, rest[0]);
  }

  lemma OwnedAreOpen(s: Sys, loose: set<int>)
    requires Shape(s) && Conserved(s, loose)
    ensures forall i :: i in s.live ==> s.st[i].fd >= 0 && s.st[i].fd in s.os.fds.open
  {
    assert forall i :: i in s.live ==> s.st[i].fd in LiveFds(s);
  }

  ghost predicate Resetting(t: Sys, done: seq<int>, rest: seq<int>, s: Sys) {
    && Shape(t) && t.live == done + rest && AllSlots(rest)
    && Shape(s) && AllSlots(s.live) && ResetRefs(t, rest) == ResetRefs(s, s.live)
  }

  lemma ResetStart(s: Sys)
    requires Shape(s)
    ensures AllSlots(s.live) && Resetting(s, [], s.live, s)
  {
    LiveAreSlots(s);
    assert s.live == [] + s.live;
  }

  lemma ResetStep(t: Sys, done: seq<int>, rest: seq<int>, s: Sys)
    requires Resetting(t, done, rest, s) && rest != []
    ensures rest[0] in t.live && IsSlot(rest[0]) && NextOf(t.live, rest[0]) == Nth(rest[1..], 0)
    ensures var t' := SetRef(t, rest[0], Unwatched);
      t'.live == t.live && Resetting(t', done + [rest[0]], rest[1..], s)
  {
    ListSplit(t.live, done, rest, t.stamp);
  }

  /** `sofar` are the entries made for `done`; those of `rest` are to follow. */
  ghost predicate Assigning(t: Sys, done: seq<int>, rest: seq<int>, u: Sys, sofar: seq<PollFd>) {
    && Shape(t) && t.live == done + rest && AllSlots(rest) && |t.live| <= POOL_SIZE
    && Shape(u) && AllSlots(u.live) && |sofar| <= |done|
    && AssignRefs(t, rest, |sofar|) == AssignRefs(u, u.live, 0)
    && sofar + PollList(t, rest) == PollList(u, u.live)
  }

  lemma AssignStart(s: Sys)
    requires Shape(s)
    ensures AllSlots(s.live)
    ensures var u := ResetRefs(s, s.live);
      && Shape(u) && AllSlots(u.live) && Assigning(u, [], u.live, u, []) && u.live == s.live
      && PollList(u, u.live) == PollList(s, s.live)
  {
    LiveAreSlots(s);
    LengthBounded(s.live, s.stamp);
    ResetRefsFrame(s, s.live);
    var u := ResetRefs(s, s.live);
    SamePollList(s, u, s.live);
    assert u.live == [] + u.live && PollList(u, u.live) == [] + PollList(u, u.live);
  }

  lemma AssignStep(t: Sys, done: seq<int>, rest: seq<int>, u: Sys, sofar: seq<PollFd>)
    requires Assigning(t, done, rest, u, sofar) && rest != []
    ensures rest[0] in t.live && IsSlot(rest[0]) && NextOf(t.live, rest[0]) == Nth(rest[1..], 0)
    ensures |sofar| <= |done| < POOL_SIZE
    ensures var x := t.st[rest[0]];
      if x.events.Any() then
        Assigning(SetRef(t, rest[0], InPollList(|sofar|)), done + [rest[0]], rest[1..], u, sofar + [PollFd(x.fd, x.events.Armed())])
      else Assigning(t, done + [rest[0]], rest[1..], u, sofar)
  {
    ListSplit(t.live, done, rest, t.stamp);
    if t.st[rest[0]].events.Any() {
      AssignAny(t, done, rest, u, sofar);
    } else {
      AssignMore(t, rest, sofar);
    }
  }

  lemma AssignAny(t: Sys, done: seq<int>, rest: seq<int>, u: Sys, sofar: seq<PollFd>)
    requires Assigning(t, done, rest, u, sofar) && rest != [] && IsSlot(rest[0])
    requires t.live == (done + [rest[0]]) + rest[1..] && t.st[rest[0]].events.Any()
    ensures var x := t.st[rest[0]];
      Assigning(SetRef(t, rest[0], InPollList(|sofar|)), done + [rest[0]], rest[1..], u, sofar + [PollFd(x.fd, x.events.Armed())])
  {
    AssignMore(t, rest, sofar);
  }

  lemma AssignMore(t: Sys, rest: seq<int>, sofar: seq<PollFd>)
    requires |t.st| == POOL_SIZE && AllSlots(rest) && rest != []
    ensures AllSlots(rest[1..])
    ensures var x := t.st[rest[0]];
      if x.events.Any() then
        var t' := SetRef(t, rest[0], InPollList(|sofar|));
        && sofar + PollList(t, rest) == (sofar + [PollFd(x.fd, x.events.Armed())]) + PollList(t', rest[1..])
        && AssignRefs(t, rest, |sofar|) == AssignRefs(t', rest[1..], |sofar| + 1)
      else
        PollList(t, rest) == PollList(t, rest[1..]) && AssignRefs(t, rest, |sofar|) == AssignRefs(t, rest[1..], |sofar|)
  {
    var tail := rest[1..];
    var x := t.st[rest[0]];
    if x.events.Any() {
      SamePollList(t, SetRef(t, rest[0], InPollList(|sofar|)), tail);
      Associate(sofar, [PollFd(x.fd, x.events.Armed())], PollList(t, tail));
    } else {
      assert [] + PollList(t, tail) == PollList(t, tail);
    }
  }

  function GiveRevents(s: Sys, i: int, revents: Events): Sys
    requires |s.st| == POOL_SIZE && IsSlot(i)
  {
    s.(st := s.st[i := s.st[i].(revents := revents)])
  }

  /** The streams of `done` have been given their events, those of `rest` have not. */
  ghost predicate Delivering(t: Sys, done: seq<int>, rest: seq<int>, s: Sys, ready: seq<Ready>) {
    && Shape(t) && Shape(s) && t == s.(st := t.st) && s.live == done + rest && AllSlots(s.live) && AllSlots(done) && AllSlots(rest)
    && (forall k :: 0 <= k < |done| ==> t.st[done[k]] == s.st[done[k]].(revents := Revents(s.st[done[k]], ready)))
    && (forall i :: IsSlot(i) && i !in done ==> t.st[i] == s.st[i])
  }

  lemma DeliverStart(s: Sys, ready: seq<Ready>)
    requires Shape(s) && AllSlots(s.live)
    ensures Delivering(s, [], s.live, s, ready)
  {
    assert s.live == [] + s.live;
  }

  lemma DeliverStep(t: Sys, done: seq<int>, rest: seq<int>, s: Sys, ready: seq<Ready>)
    requires Delivering(t, done, rest, s, ready) && rest != []
    ensures rest[0] in t.live && IsSlot(rest[0]) && NextOf(t.live, rest[0]) == Nth(rest[1..], 0)
    ensures t.st[rest[0]] == s.st[rest[0]]
    ensures var t' := GiveRevents(t, rest[0], Revents(s.st[rest[0]], ready));
      t'.live == t.live && Delivering(t', done + [rest[0]], rest[1..], s, ready)
  {
    ListSplit(s.live, done, rest, s.stamp);
    DeliverFresh(done, rest, s);
    var t' := GiveRevents(t, rest[0], Revents(s.st[rest[0]], ready));
    var d := done + [rest[0]];
    forall k | 0 <= k < |d|
      ensures t'.st[d[k]] == s.st[d[k]].(revents := Revents(s.st[d[k]], ready))
    {
      assert k < |done| ==> d[k] == done[k];
    }
  }

  lemma DeliverFresh(done: seq<int>, rest: seq<int>, s: Sys)
    requires Shape(s) && s.live == done + rest && rest != []
    ensures rest[0] !in done && IsSlot(rest[0])
    ensures forall k :: 0 <= k < |done| ==> done[k] != rest[0] && IsSlot(done[k])
  {
    assert s.live[|done|] == rest[0];
    forall k | 0 <= k < |done|
      ensures done[k] != rest[0] && IsSlot(done[k])
    {
      assert s.live[k] == done[k] && s.live[k] in s.live;
      assert s.stamp[s.live[k]] > s.stamp[s.live[|done|]];
    }
  }

  lemma DeliverEnd(t: Sys, done: seq<int>, rest: seq<int>, s: Sys, ready: seq<Ready>)
    requires Delivering(t, done, rest, s, ready) && Nth(rest, 0) == NULL
    ensures t == Deliver(s, ready)
  {
    assert rest == [];
    assert done + [] == done;
    forall i | 0 <= i < POOL_SIZE
      ensures t.st[i] == Deliver(s, ready).st[i]
    {
      assert IsSlot(i);
      if i in done {
        var k :| 0 <= k < |done| && done[k] == i;
      }
    }
    assert t.st == Deliver(s, ready).st;
  }

  lemma AssignEnd(t: Sys, done: seq<int>, rest: seq<int>, u: Sys, sofar: seq<PollFd>)
    requires Assigning(t, done, rest, u, sofar) && Nth(rest, 0) == NULL
    ensures t == AssignRefs(u, u.live, 0) && sofar == PollList(u, u.live)
  {
    assert rest == [];
    assert sofar + [] == sofar;
  }

  predicate PollAnswer(revents: seq<Events>, list: seq<PollFd>, ready: seq<Ready>) {
    |revents| == |list| && forall m :: 0 <= m < |list| ==> revents[m] == Clip(Reported(ready, list[m].fd), list[m].mask)
  }

  ghost predicate AllRefer(s: Sys, list: seq<PollFd>) {
    && |s.st| == POOL_SIZE && AllSlots(s.live)
    && forall k :: 0 <= k < |s.live| ==> RefersTo(s.st[s.live[k]], list, 0)
  }

  lemma ReferOne(s: Sys, done: seq<int>, rest: seq<int>, list: seq<PollFd>)
    requires AllRefer(s, list) && s.live == done + rest && rest != []
    ensures IsSlot(rest[0]) && RefersTo(s.st[rest[0]], list, 0)
  {
    assert s.live[|done|] == rest[0];
  }

  function Sign(n: int): int {
    if n < 0 then -1 else if n == 0 then 0 else 1
  }

  lemma ArrivalsRefer(b: Sys, arrivals: seq<Arrival>, list: seq<PollFd>)
    requires Shape(b) && AllRefer(b, list)
    ensures AllRefer(Arrive(b, arrivals), list)
  {
    ArriveSound(b, arrivals);
    var a := Arrive(b, arrivals);
    forall k | 0 <= k < |a.live|
      ensures RefersTo(a.st[a.live[k]], list, 0)
    {
      assert RefersTo(b.st[b.live[k]], list, 0);
    }
  }

  lemma PollPrepared(s: Sys)
    requires Shape(s)
    ensures AllSlots(s.live)
    ensures var b := BuildPoll(s);
      AllRefer(b, PollList(s, s.live)) && PollList(b, b.live) == PollList(s, s.live)
  {
    LiveAreSlots(s);
    BuildPollRefers(s);
    SamePollList(s, BuildPoll(s), s.live);
  }

  lemma DeliveredAt(b: Sys, arrivals: seq<Arrival>, ready: seq<Ready>, k: nat)
    requires Shape(b) && k < |b.live|
    ensures var d := Deliver(Arrive(b, arrivals), ready);
      && d.live == b.live && AllSlots(d.live)
      && d.st[d.live[k]].revents == Revents(b.st[b.live[k]], ready)
  {
    ArriveSound(b, arrivals);
    DeliverSoft(Arrive(b, arrivals), ready);
    assert b.live[k] in b.live && IsSlot(b.live[k]);
  }

  lemma DeliveredLive(b: Sys, arrivals: seq<Arrival>, ready: seq<Ready>)
    requires Shape(b)
    ensures var d := Deliver(Arrive(b, arrivals), ready); d.live == b.live && AllSlots(d.live)
  {
    ArriveSound(b, arrivals);
  }

  lemma BusyReported(b: Sys, list: seq<PollFd>, revents: seq<Events>, ready: seq<Ready>, k: nat)
    requires Shape(b) && AllRefer(b, list) && PollAnswer(revents, list, ready)
    requires k < |b.live| && Revents(b.st[b.live[k]], ready).Any()
    ensures exists m :: 0 <= m < |revents| && revents[m].Any()
  {
    assert RefersTo(b.st[b.live[k]], list, 0);
    assert revents[b.st[b.live[k]].pollref.index].Any();
  }

  lemma ReportedBusy(b: Sys, list: seq<PollFd>, revents: seq<Events>, ready: seq<Ready>, m: nat) returns (k: nat)
    requires Shape(b) && AllSlots(b.live) && list == PollList(b, b.live) && PollAnswer(revents, list, ready)
    requires m < |revents| && revents[m].Any()
    ensures k < |b.live| && Revents(b.st[b.live[k]], ready).Any()
  {
    assert list[m] in list;
    PollListMembers(b, b.live, list[m]);
    k :| 0 <= k < |b.live| && b.st[b.live[k]].events.Any() && list[m] == PollFd(b.st[b.live[k]].fd, b.st[b.live[k]].events.Armed());
  }

  predicate AnyFired(revents: seq<Events>) {
    exists m :: 0 <= m < |revents| && revents[m].Any()
  }

  /** Something was reported for an entry exactly when some stream has events afterwards. */
  lemma PollBusy(b: Sys, arrivals: seq<Arrival>, list: seq<PollFd>, revents: seq<Events>, ready: seq<Ready>)
    requires Shape(b) && AllRefer(b, list) && list == PollList(b, b.live) && PollAnswer(revents, list, ready)
    ensures var d := Deliver(Arrive(b, arrivals), ready);
      && AllSlots(d.live)
      && (Busy(d) <==> AnyFired(revents))
  {
    var d := Deliver(Arrive(b, arrivals), ready);
    DeliveredLive(b, arrivals, ready);
    if Busy(d) {
      var k :| 0 <= k < |d.live| && d.st[d.live[k]].revents.Any();
      DeliveredAt(b, arrivals, ready, k);
      BusyReported(b, list, revents, ready, k);
    }
    if m :| 0 <= m < |revents| && revents[m].Any() {
      var k := ReportedBusy(b, list, revents, ready, m);
      DeliveredAt(b, arrivals, ready, k);
      assert d.st[d.live[k]].revents.Any();
    }
  }

  /** epoll_ctl on behalf of a stream, with the stream's own notes. */
  function Control(s: Sys, i: int, op: EpollOp, fails: set<int>): (Sys, bool)
    requires |s.st| == POOL_SIZE && IsSlot(i)
  {
    var x := s.st[i];
    match EpollCtl(s.os.kernel, op, x.fd, Watch(x.events.Armed(), i))
    case None => (s, false)
    case Some(kernel) =>
      if x.fd in fails then (s, false)
      else if op == Del then (Unregister(s, i, kernel), true) else (Register(s, i, kernel), true)
  }

  lemma ControlShape(s: Sys, i: int, op: EpollOp, fails: set<int>)
    requires Shape(s) && IsSlot(i)
    ensures Shape(Control(s, i, op, fails).0) && Control(s, i, op, fails).0.live == s.live
  {
  }

  lemma EpollOneShape(s: Sys, i: int, fails: set<int>)
    requires Shape(s) && IsSlot(i)
    ensures Shape(EpollOne(s, i, fails).0) && EpollOne(s, i, fails).0.live == s.live
  {
  }

  ghost predicate Building(t: Sys, done: seq<int>, rest: seq<int>, s: Sys, fails: set<int>) {
    && Shape(t) && t.live == done + rest && AllSlots(rest)
    && |s.st| == POOL_SIZE && AllSlots(s.live) && BuildEpoll(t, rest, fails) == BuildEpoll(s, s.live, fails)
  }

  lemma BuildStart(s: Sys, fails: set<int>)
    requires Shape(s)
    ensures Building(s, [], s.live, s, fails)
  {
    LiveAreSlots(s);
    assert s.live == [] + s.live;
  }

  lemma BuildStep(t: Sys, done: seq<int>, rest: seq<int>, s: Sys, fails: set<int>)
    requires Building(t, done, rest, s, fails) && rest != []
    ensures rest[0] in t.live && IsSlot(rest[0]) && NextOf(t.live, rest[0]) == Nth(rest[1..], 0)
    ensures var (t', ok) := EpollOne(t, rest[0], fails);
      && t'.live == t.live && Shape(t')
      && (ok ==> Building(t', done + [rest[0]], rest[1..], s, fails))
      && (!ok ==> (t', false) == BuildEpoll(s, s.live, fails))
  {
    ListSplit(t.live, done, rest, t.stamp);
    EpollOneShape(t, rest[0], fails);
  }

  /** What is left of `fired` in each stream; nothing else differs. */
  ghost predicate FannedOut(t: Sys, s: Sys, fired: seq<EpollEvent>) {
    && |s.st| == POOL_SIZE && |t.st| == POOL_SIZE && t == s.(st := t.st)
    && forall i :: IsSlot(i) ==>
         t.st[i] == if i in s.live then s.st[i].(revents := EventsFor(fired, i)) else s.st[i]
  }

  lemma FanStart(s: Sys)
    requires Shape(s)
    ensures FannedOut(Deliver(s, []), s, [])
  {
  }

  lemma FanStep(t: Sys, s: Sys, fired: seq<EpollEvent>, k: nat)
    requires k < |fired| && fired[k].ptr in s.live && fired[k].events.Any() && IsSlot(fired[k].ptr)
    requires FannedOut(t, s, fired[..k])
    ensures FannedOut(GiveRevents(t, fired[k].ptr, fired[k].events), s, fired[..k + 1])
  {
    assert fired[..k + 1] == fired[..k] + [fired[k]];
    forall i | IsSlot(i)
      ensures EventsFor(fired[..k + 1], i) == if fired[k].ptr == i then fired[k].events else EventsFor(fired[..k], i)
    {
      EventsForLast(fired[..k], fired[k], i);
    }
  }

  ghost predicate AllSettled(s: Sys) {
    |s.st| == POOL_SIZE && AllSlots(s.live) && forall i :: i in s.live ==> IsSlot(i) && Settled(s.st[i])
  }

  lemma ArrivedSettled(b: Sys, arrivals: seq<Arrival>)
    requires Base(b) && AllSettled(b)
    ensures Base(Arrive(b, arrivals)) && AllSettled(Arrive(b, arrivals))
  {
    ArriveSound(b, arrivals);
    SoftBase(b, Arrive(b, arrivals), {});
  }

  lemma FiredAtLive(s: Sys, ready: seq<Ready>)
    requires Base(s) && s.os.epfd >= 0 && AllSettled(s)
    ensures var fired := Fired(s.os.kernel, ready, {});
      forall k :: 0 <= k < |fired| ==> fired[k].ptr in s.live && fired[k].events.Any()
  {
    var fired := Fired(s.os.kernel, ready, {});
    EpollEqualsPoll(s);
    forall k | 0 <= k < |fired|
      ensures fired[k].ptr in s.live && fired[k].events.Any()
    {
      FiredAny(s.os.kernel, ready, {}, k);
    }
  }

  lemma FannedIsDelivered(t: Sys, s: Sys, ready: seq<Ready>)
    requires Base(s) && s.os.epfd >= 0 && AllSettled(s) && FannedOut(t, s, Fired(s.os.kernel, ready, {}))
    ensures t == Deliver(s, ready)
  {
    forall i | 0 <= i < POOL_SIZE
      ensures t.st[i] == Deliver(s, ready).st[i]
    {
      assert IsSlot(i);
      if i in s.live {
        EpollDeliversLikePoll(s, i, ready);
      }
    }
    assert t.st == Deliver(s, ready).st;
  }

  lemma BusyFired(s: Sys, ready: seq<Ready>, k: nat)
    requires Base(s) && s.os.epfd >= 0 && AllSettled(s) && k < |s.live| && Revents(s.st[s.live[k]], ready).Any()
    ensures Fired(s.os.kernel, ready, {}) != []
  {
    assert s.live[k] in s.live;
    EpollDeliversLikePoll(s, s.live[k], ready);
  }

  lemma FiredBusy(s: Sys, ready: seq<Ready>) returns (k: nat)
    requires Base(s) && s.os.epfd >= 0 && AllSettled(s) && Fired(s.os.kernel, ready, {}) != []
    ensures k < |s.live| && Revents(s.st[s.live[k]], ready).Any()
  {
    var fired := Fired(s.os.kernel, ready, {});
    FiredAtLive(s, ready);
    assert fired[0].ptr in s.live && fired[0].events.Any();
    k :| 0 <= k < |s.live| && s.live[k] == fired[0].ptr;
    EpollDeliversLikePoll(s, s.live[k], ready);
  }

  /** epoll_wait returns a count above zero exactly when some stream has events afterwards. */
  lemma EpollBusy(s: Sys, ready: seq<Ready>)
    requires Base(s) && s.os.epfd >= 0 && AllSettled(s)
    ensures var d := Deliver(s, ready);
      AllSlots(d.live) && (Busy(d) <==> Fired(s.os.kernel, ready, {}) != [])
  {
    var d := Deliver(s, ready);
    DeliverSoft(s, ready);
    if Busy(d) {
      var k :| 0 <= k < |d.live| && d.st[d.live[k]].revents.Any();
      assert s.live[k] in s.live;
      BusyFired(s, ready, k);
    }
    if Fired(s.os.kernel, ready, {}) != [] {
      var k := FiredBusy(s, ready);
      assert s.live[k] in s.live;
      assert d.st[d.live[k]].revents.Any();
    }
  }

  lemma EpollCollects(b: Sys, arrivals: seq<Arrival>, ready: seq<Ready>)
    requires Base(b) && b.os.epfd >= 0 && AllSettled(b)
    ensures var a := Arrive(b, arrivals);
      var fired := Fired(a.os.kernel, ready, {});
      var d := Deliver(a, ready);
      && Base(a) && a.os == b.os && AllSettled(a)
      && (forall k :: 0 <= k < |fired| ==> fired[k].ptr in a.live && fired[k].events.Any())
      && AllSlots(d.live) && (Busy(d) <==> fired != [])
  {
    ArriveSound(b, arrivals);
    ArrivedSettled(b, arrivals);
    FiredAtLive(Arrive(b, arrivals), ready);
    EpollBusy(Arrive(b, arrivals), ready);
  }

  class Proxy {
    const pool: array<Slot>
    var head: int
    var tail: int
    var os: Os
    ghost var view: Sys

    ghost predicate Valid()
      reads this, pool
    {
      Represents(pool[..], head, tail, view) && os == view.os
    }

    /** A loop over the list has reached `iter`, the first of `rest`, with the state at `t`. */
    ghost predicate At(t: Sys, rest: seq<int>, iter: int)
      reads this, pool
    {
      Valid() && view == t && iter == Nth(rest, 0)
    }

    ghost predicate ResettingAt(t: Sys, done: seq<int>, rest: seq<int>, s: Sys, iter: int)
      reads this, pool
    {
      At(t, rest, iter) && Resetting(t, done, rest, s)
    }

    ghost predicate AssigningAt(t: Sys, done: seq<int>, rest: seq<int>, u: Sys, sofar: seq<PollFd>, iter: int)
      reads this, pool
    {
      At(t, rest, iter) && Assigning(t, done, rest, u, sofar)
    }

    // -------------------------------------------------------------------------------------------
    // Single streams
    // -------------------------------------------------------------------------------------------

    /** Writes the record in a slot, leaving its links alone. */
    method Store(i: int, x: Stream)
      requires Valid() && IsSlot(i) && (x.neighbour == NULL || (IsSlot(x.neighbour) && x.neighbour != i))
      modifies this`view, pool
      ensures Valid() && view == old(view).(st := old(view).st[i := x])
    {
      ghost var t := view.(st := view.st[i := x]);
      StoreRepresents(pool[..], head, tail, view, i, x, t);
      pool[i] := pool[i].(stream := x);
      view := t;
    }

    /** Clears a free slot and makes it the head of the list. */
    method LinkFront(i: int, fd: int)
      requires Valid() && i == FreeSlot(view) != NULL
      modifies this, pool
      ensures Valid() && view == Insert(old(view), fd)
    {
      InsertRepresents(pool[..], head, tail, view, fd);
      ghost var p := LinkHead(pool[..], i, head, Blank(fd));
      pool[i] := Slot(true, NULL, head, Blank(fd));
      if head != NULL {
        pool[head] := pool[head].(prev := i);
      } else {
        tail := i;
      }
      assert pool[..] == p;
      head := i;
      view := Insert(view, fd);
    }

    method InsertStream(fd: int) returns (i: int)
      requires Valid()
      modifies this, pool
      ensures Valid() && i == FreeSlot(old(view))
      ensures view == if i == NULL then old(view) else Insert(old(view), fd)
    {
      i := 0;
      while i < POOL_SIZE && pool[i].taken
        invariant 0 <= i <= POOL_SIZE
        invariant forall k :: 0 <= k < i ==> k in view.live
      {
        assert IsSlot(i);
        i := i + 1;
      }
      if i == POOL_SIZE {
        return NULL;
      }
      assert IsSlot(i) && i !in view.live;
      LinkFront(i, fd);
    }

    /** Takes a slot out of the list and frees it. */
    method UnlinkSlot(i: int, ghost p: seq<Slot>)
      requires pool.Length == POOL_SIZE && IsSlot(i)
      requires (pool[i].next == NULL || IsSlot(pool[i].next)) && (pool[i].prev == NULL || IsSlot(pool[i].prev))
      requires pool[i].next != i && pool[i].prev != i
      requires p == Unlink(pool[..], i)[i := pool[i].(taken := false)]
      modifies this`head, this`tail, pool
      ensures pool[..] == p
      ensures head == if i == old(head) then old(pool[i].next) else old(head)
      ensures tail == if i == old(tail) then old(pool[i].prev) else old(tail)
    {
      if i == head {
        head := pool[i].next;
      }
      if i == tail {
        tail := pool[i].prev;
      }
      if pool[i].next != NULL {
        pool[pool[i].next] := pool[pool[i].next].(prev := pool[i].prev);
      }
      if pool[i].prev != NULL {
        pool[pool[i].prev] := pool[pool[i].prev].(next := pool[i].next);
      }
      pool[i] := pool[i].(taken := false);
    }

    /** Closes a stream's descriptor; epoll is told first if the stream is registered. */
    method CloseStream(i: int)
      requires pool.Length == POOL_SIZE && IsSlot(i)
      modifies this`os, pool
      ensures var fd := old(pool[i].stream.fd);
        if fd < 0 then os == old(os) && pool[..] == old(pool[..])
        else
          && os == old(os).(fds := old(os).fds.Close(fd), kernel := old(os).kernel - {fd})
          && pool[..] == old(pool[..])[i := old(pool[i]).(stream := old(pool[i]).stream.(fd := -1))]
    {
      var fd := pool[i].stream.fd;
      if fd >= 0 {
        if pool[i].stream.pollref != Unwatched {
          os := os.(kernel := os.kernel - {fd});
        }
        os := os.(fds := os.fds.Close(fd), kernel := os.kernel - {fd});
        pool[i] := pool[i].(stream := pool[i].stream.(fd := -1));
      }
    }

    method RemoveStream(i: int)
      requires Valid() && i in view.live
      requires view.st[i].fd >= 0 && view.st[i].fd in os.fds.open
      modifies this, pool
      ensures Valid() && view == Remove(old(view), i)
    {
      ghost var was, h, t, s := pool[..], head, tail, view;
      ghost var p := RemovalWrites(was, h, t, s, i);
      CloseStream(i);
      UnlinkSlot(i, p);
      view := Remove(s, i);
    }

    method RemoveRelation(i: int)
      requires Valid() && IsSlot(i)
      modifies this`view, pool
      ensures Valid() && view == Abandon(old(view), i)
    {
      var j := pool[i].stream.neighbour;
      if j != NULL {
        Store(j, pool[j].stream.(abandoned := true));
      }
      Store(i, pool[i].stream.(abandoned := true));
    }

    /** The successor of a listed slot, as its link says. */
    method Successor(i: int) returns (n: int)
      requires Valid() && i in view.live
      ensures n == NextOf(view.live, i)
    {
      ghost var k := LinksOf(pool[..], head, tail, view, i);
      FromAt(view.live, k, view.stamp);
      n := pool[i].next;
    }

    // -------------------------------------------------------------------------------------------
    // Loops over the list
    // -------------------------------------------------------------------------------------------

    method CleanupStreams()
      requires Valid() && Base(view)
      modifies this, pool
      ensures Valid() && view == Cleanup(old(view))
    {
      PurgeAbandoned();
      CountRepresents(pool[..], head, tail, view, 0);
      view := view.(evictions := 0);
    }

    method PurgeAbandoned()
      requires Valid() && Base(view)
      modifies this, pool
      ensures Valid() && PartOf(old(view).live, old(view)) && view == Purge(old(view), old(view).live, AbandonedIn(old(view)))
    {
      ghost var s, doomed := view, AbandonedIn(view);
      ghost var t, done, rest := view, [], view.live;
      PurgeStart(s, doomed);
      var iter := head;
      while iter != NULL
        invariant CleaningAt(t, done, rest, s, doomed, iter)
        decreases |rest|
      {
        iter, t, done := CleanupTurn(iter, t, done, rest, s, doomed);
        rest := rest[1..];
      }
      PurgeEnd(t, done, rest, s, doomed);
    }

    ghost predicate CleaningAt(t: Sys, done: seq<int>, rest: seq<int>, s: Sys, doomed: set<int>, iter: int)
      reads this, pool
    {
      At(t, rest, iter) && Purging(t, done, rest, s, doomed) && Marked(t, rest, doomed)
    }

    method CleanupTurn(iter: int, ghost t: Sys, ghost done: seq<int>, ghost rest: seq<int>, ghost s: Sys, ghost doomed: set<int>)
      returns (next: int, ghost t': Sys, ghost done': seq<int>)
      requires CleaningAt(t, done, rest, s, doomed, iter) && rest != []
      modifies this, pool
      ensures CleaningAt(t', done', rest[1..], s, doomed, next)
    {
      PurgeStep(t, done, rest, s, doomed);
      MarkedStep(t, rest, doomed);
      next := Successor(iter);
      t', done' := t, done;
      if pool[iter].stream.abandoned {
        RemoveStream(iter);
        t' := Remove(t, rest[0]);
      } else {
        done' := done + [rest[0]];
      }
    }

    method RemoveAllStreams()
      requires Valid() && Base(view)
      modifies this, pool
      ensures Valid() && view == RemoveAll(old(view))
    {
      ghost var s, doomed := view, set x | x in view.live;
      ghost var t, rest := view, view.live;
      PurgeStart(s, doomed);
      var iter := head;
      while iter != NULL
        invariant Valid() && view == t && iter == Nth(rest, 0)
        invariant Purging(t, [], rest, s, doomed)
        invariant forall x :: x in rest ==> x in doomed
        decreases |rest|
      {
        PurgeStep(t, [], rest, s, doomed);
        var next := Successor(iter);
        assert rest[0] in rest;
        RemoveStream(iter);
        t := Remove(t, rest[0]);
        rest := rest[1..];
        iter := next;
      }
    }

    method MarkStream(i: int)
      requires Valid() && IsSlot(i)
      modifies this`view, pool
      ensures Valid() && view == MarkOne(old(view), i)
    {
      if IsPending(pool[i].stream) {
        RemoveRelation(i);
      }
    }

    method RemovePendingStreams()
      requires Valid()
      modifies this`view, pool
      ensures Valid() && view == MarkPending(old(view), old(view).live)
    {
      ghost var s := view;
      ghost var t, done, rest := view, [], view.live;
      assert s.live == [] + s.live;
      var iter := head;
      while iter != NULL
        invariant Valid() && view == t && iter == Nth(rest, 0)
        invariant Marking(t, done, rest, s)
        decreases |rest|
      {
        MarkStep(t, done, rest, s);
        MarkStream(iter);
        t := MarkOne(t, rest[0]);
        done := done + [rest[0]];
        rest := rest[1..];
        iter := Successor(iter);
      }
    }

    // -------------------------------------------------------------------------------------------
    // Making room
    // -------------------------------------------------------------------------------------------

    /** The last listed slot, from the tail backwards, whose stream is a candidate. */
    method LastCandidate(abandoned: bool, excl: int, ghost candidates: set<int>) returns (i: int)
      requires Valid()
      requires candidates == if abandoned then AbandonedExcept(view, excl) else PairedExcept(view, excl)
      ensures i == LastOf(view.live, candidates)
    {
      ghost var k := |view.live| - 1;
      i := tail;
      SeekStart(candidates);
      while i != NULL
        invariant SeekingAt(i, k, candidates)
        decreases k
      {
        var found, before := SeekTurn(i, k, abandoned, excl, candidates);
        if found {
          return;
        }
        i, k := before, k - 1;
      }
    }

    lemma SeekStart(candidates: set<int>)
      requires Valid()
      ensures SeekingAt(tail, |view.live| - 1, candidates)
    {
      assert view.live[..|view.live|] == view.live;
    }

    /** The search has come to `i`, at position `k`, without finding a candidate. */
    ghost predicate SeekingAt(i: int, k: int, candidates: set<int>)
      reads this
    {
      && -1 <= k < |view.live| && i == Nth(view.live, k)
      && LastOf(view.live[..k + 1], candidates) == LastOf(view.live, candidates)
    }

    method SeekTurn(i: int, ghost k: nat, abandoned: bool, excl: int, ghost candidates: set<int>) returns (found: bool, before: int)
      requires Valid() && k < |view.live| && i == view.live[k]
      requires candidates == if abandoned then AbandonedExcept(view, excl) else PairedExcept(view, excl)
      ensures if found then LastOf(view.live[..k + 1], candidates) == i
              else before == Nth(view.live, k - 1) && LastOf(view.live[..k + 1], candidates) == LastOf(view.live[..k], candidates)
    {
      SeekStep(pool[..], head, tail, view, k, abandoned, excl, candidates);
      var x := pool[i].stream;
      found := i != excl && if abandoned then x.abandoned else x.role == Client || x.role == Endpoint;
      before := pool[i].prev;
    }

    method ForceCleanup(excl: int)
      requires Valid() && forall i :: i in view.live ==> view.st[i].fd >= 0 && view.st[i].fd in os.fds.open
      modifies this, pool
      ensures Valid() && view == Evict(old(view), excl)
    {
      var iter := LastCandidate(true, excl, AbandonedExcept(view, excl));
      if iter == NULL {
        iter := LastCandidate(false, excl, PairedExcept(view, excl));
      }
      if iter != NULL {
        EvictStream(iter);
      }
    }

    method EvictStream(i: int)
      requires Valid() && i in view.live && view.st[i].fd >= 0 && view.st[i].fd in os.fds.open
      modifies this, pool
      ensures Valid() && view == Remove(Abandon(old(view), i), i).(evictions := old(view).evictions + 1)
    {
      AbandonedStays(view, i);
      RemoveRelation(i);
      RemoveStream(i);
      view := view.(evictions := view.evictions + 1);
    }

    // -------------------------------------------------------------------------------------------
    // Handlers
    // -------------------------------------------------------------------------------------------

    /** A descriptor the kernel hands out. */
    method OpenSocket(fd: int)
      requires Valid() && Fresh(view, fd)
      modifies this`os, this`view
      ensures Valid() && view == OpenFd(old(view), fd)
    {
      os := os.(fds := os.fds.Open(fd));
      view := OpenFd(view, fd);
    }

    /** shutdown_then_close on a socket that is in no stream. */
    method CloseSocket(fd: int)
      requires Valid() && fd in os.fds.open
      modifies this`os, this`view
      ensures Valid() && view == CloseFd(old(view), fd)
    {
      os := os.(fds := os.fds.Close(fd));
      view := CloseFd(view, fd);
    }

    /** insert_stream, force_cleanup and insert_stream again; a slot is always found in the end. */
    method TakeSlot(fd: int, excl: int) returns (i: int, ghost victim: int)
      requires Valid() && Sound(view)
      requires forall i :: i in view.live ==> view.st[i].fd >= 0 && view.st[i].fd in os.fds.open
      modifies this, pool
      ensures Valid() && i != NULL && IsSlot(i)
      ensures victim == if FreeSlot(old(view)) == NULL then Victim(old(view), excl) else NULL
      ensures var s := if FreeSlot(old(view)) == NULL then Evict(old(view), excl) else old(view);
        Shape(s) && FreeSlot(s) != NULL && i == FreeSlot(s) && view == Insert(s, fd)
    {
      victim := NULL;
      i := InsertStream(fd);
      if i == NULL {
        EvictionFreesOneSlot(view, excl);
        victim := Victim(view, excl);
        ForceCleanup(excl);
        i := InsertStream(fd);
      }
    }

    method InsertOrEvict(fd: int, excl: int, role: Role, level: Level, events: Events) returns (i: int, ghost victim: int)
      requires Valid() && Sound(view)
      requires forall i :: i in view.live ==> view.st[i].fd >= 0 && view.st[i].fd in os.fds.open
      modifies this, pool
      ensures Valid() && i != NULL
      ensures Seating(view, i, victim) == Seat(old(view), fd, excl, role, level, events)
    {
      i, victim := TakeSlot(fd, excl);
      Store(i, pool[i].stream.(role := role, level := level, events := events));
    }

    method HandleNewStream(i: int, e: Env) returns (ok: bool, ghost victim: int)
      requires Valid() && Base(view) && i in view.live
      modifies this, pool
      ensures Valid() && Outcome(view, ok, victim) == Handlers.HandleNewStream(old(view), i, e)
    {
      assert IsSlot(i);
      ok, victim := true, NULL;
      if !pool[i].stream.revents.rd {
        return;
      }
      var sock := e.accepted;
      if !(sock >= 0 && sock !in os.fds.open) {
        return false, NULL;
      }
      OpenBase(view, sock);
      OwnedAreOpen(OpenFd(view, sock), {sock});
      OpenSocket(sock);
      if !e.nonblocking {
        CloseSocket(sock);
        return false, NULL;
      }
      var k;
      k, victim := InsertOrEvict(sock, NULL, Client, Ver, IN);
    }

    method SetupEndpointStream(i: int, e: Env) returns (status: int, ghost victim: int)
      requires Valid() && Base(view) && i in view.live
      modifies this, pool
      ensures Valid() && (status == 0 || status == -1 || status == -2)
      ensures status == -1 ==> i in view.live && view.live == old(view.live) && victim == NULL
      ensures SetupEndpoint(old(view), i, e) ==
                if status == -1 then Outcome(Abandon(view, i), true, NULL) else Outcome(view, status == 0, victim)
    {
      assert IsSlot(i);
      ghost var s := view;
      victim := NULL;
      match e.dialing
      case NoSocket =>
        return -2, NULL;
      case Refused(fd) =>
        if !(fd >= 0 && fd !in os.fds.open) {
          return -2, NULL;
        }
        OpenSocket(fd);
        CloseSocket(fd);
        return -1, NULL;
      case Pending(fd) =>
        if !(fd >= 0 && fd !in os.fds.open) {
          return -2, NULL;
        }
        OpenBase(view, fd);
        OwnedAreOpen(OpenFd(view, fd), {fd});
        SeatSpares(OpenFd(view, fd), fd, i, Endpoint, Connecting, INOUT);
        OpenSocket(fd);
        var k;
        k, victim := InsertOrEvict(fd, i, Endpoint, Connecting, INOUT);
        Store(k, pool[k].stream.(neighbour := i));
        Store(i, Answer(pool[i].stream, Pass, GRANT).(neighbour := k));
        return 0, victim;
    }

    method HandleForwardData(i: int, e: Env) returns (ok: bool)
      requires Valid() && IsSlot(i)
      modifies this`view, pool
      ensures Valid() && (ok <==> Forwards(old(view), i, e))
      ensures !ok ==> view == old(view)
      ensures ok ==>
        var j := old(view).st[i].neighbour;
        var (x, y) := ForwardData(old(view).st[i], old(view).st[j], e).value;
        view == Put(Put(old(view), i, x), j, y)
    {
      var me := pool[i].stream;
      var j := me.neighbour;
      if j == NULL || me.level != Forwarding {
        return false;
      }
      var nb := pool[j].stream;
      if me.revents.wr {
        match SocketForward(nb.sock, me.sock, e) {
          case None =>
            return false;
          case Some((src, dst)) =>
            Store(i, me.(events := me.events.(wr := false), sock := dst));
            Store(j, nb.(events := nb.events.(rd := true), sock := src));
        }
      } else if me.revents.rd {
        Store(i, me.(events := me.events.(rd := false)));
        Store(j, nb.(events := nb.events.(wr := true)));
      } else {
        assert view == Put(Put(view, i, me), j, nb);
      }
      return true;
    }

    method HandleStreamSocks(i: int, e: Env) returns (status: int, ghost victim: int)
      requires Valid() && Base(view) && i in view.live
      modifies this, pool
      ensures Valid() && (status == 0 || status == -1 || status == -2)
      ensures status == -1 ==> i in view.live
      ensures HandleSocks(old(view), i, e) ==
                if status == -1 then Outcome(Abandon(view, i), true, NULL) else Outcome(view, status == 0, victim)
    {
      assert IsSlot(i);
      victim := NULL;
      var me := pool[i].stream;
      if !me.revents.rd {
        return -1, NULL;
      }
      var reaction := Receive(me.level, me.queue, Chunk(me));
      PutBase(view, i, Read(me));
      Store(i, Read(me));
      match reaction
      case Hang =>
        return -1, NULL;
      case Wait(_) =>
        return 0, NULL;
      case Reply(level, bytes) =>
        Store(i, Answer(pool[i].stream, level, bytes));
        return 0, NULL;
      case Dial(request) =>
        status, victim := DialEndpoint(i, request, e);
    }

    /** The end of handle_stream_socks: a complete request is resolved and dialled. */
    method DialEndpoint(i: int, request: Request, e: Env) returns (status: int, ghost victim: int)
      requires Valid() && Base(view) && i in view.live
      modifies this, pool
      ensures Valid() && (status == 0 || status == -1 || status == -2)
      ensures status == -1 ==> i in view.live
      ensures Respond(old(view), i, Dial(request), e) ==
                if status == -1 then Outcome(Abandon(view, i), true, NULL) else Outcome(view, status == 0, victim)
    {
      if request.Host? && !e.resolved {
        return -1, NULL;
      }
      status, victim := SetupEndpointStream(i, e);
    }

    method HandleStreamEvents(i: int, e: Env) returns (ok: bool, ghost victim: int)
      requires Valid() && Base(view) && i in view.live
      modifies this, pool
      ensures Valid() && Outcome(view, ok, victim) == HandleEvents(old(view), i, e)
    {
      assert IsSlot(i);
      ok, victim := true, NULL;
      var forwarded := HandleForwardData(i, e);
      if forwarded {
        return;
      }
      var me := pool[i].stream;
      if me.role == Client && me.queue != [] && me.revents.wr {
        match DrainQueue(me, e)
        case None =>
          RemoveRelation(i);
        case Some(x) =>
          Store(i, x);
      } else {
        ok, victim := HandleByRole(i, e);
      }
    }

    method HandleByRole(i: int, e: Env) returns (ok: bool, ghost victim: int)
      requires Valid() && Base(view) && i in view.live
      modifies this, pool
      ensures Valid() && Outcome(view, ok, victim) == ByRole(old(view), i, e)
    {
      assert IsSlot(i);
      ok, victim := true, NULL;
      var me := pool[i].stream;
      match me.role
      case Listener =>
        ok, victim := HandleNewStream(i, e);
      case Client =>
        var status;
        status, victim := HandleStreamSocks(i, e);
        if status == -1 {
          victim := NULL;
          RemoveRelation(i);
        }
        ok := status != -2;
      case Endpoint =>
        if me.level == Connecting && me.neighbour != NULL && (me.revents.rd || me.revents.wr) {
          CompleteConnection(i);
        } else {
          RemoveRelation(i);
        }
      case Invalid =>
        assert false;
    }

    /** The endpoint is connected: both sides start forwarding. */
    method CompleteConnection(i: int)
      requires Valid() && IsSlot(i) && view.st[i].neighbour != NULL
      modifies this`view, pool
      ensures Valid() && view == Promote(old(view), i)
    {
      var me := pool[i].stream;
      var j := me.neighbour;
      var nb := pool[j].stream;
      Store(i, me.(level := Forwarding, events := IN, sock := Restart(me.sock)));
      Store(j, nb.(level := Forwarding, events := IN, sock := Restart(nb.sock), drained := nb.queue == []));
    }

    /** Bytes reach the sockets; the proxy itself does nothing. */
    method ReceiveArrivals(arrivals: seq<Arrival>)
      requires Valid()
      modifies this`view, pool
      ensures Valid() && view == Arrive(old(view), arrivals)
    {
      ghost var s := view;
      for k := 0 to |arrivals|
        invariant Valid() && Arrive(view, arrivals[k..]) == Arrive(s, arrivals)
      {
        var a := arrivals[k];
        assert arrivals[k..][0] == a && arrivals[k..][1..] == arrivals[k + 1..];
        assert a.slot in view.live ==> IsSlot(a.slot);
        if 0 <= a.slot < POOL_SIZE && pool[a.slot].taken {
          var x := pool[a.slot].stream;
          Store(a.slot, x.(sock := x.sock.(unread := x.sock.unread + a.bytes, arrived := x.sock.arrived + a.bytes)));
        }
      }
    }

    // -------------------------------------------------------------------------------------------
    // Waiting
    // -------------------------------------------------------------------------------------------

    method SetPollRef(i: int, ref: PollRef)
      requires Valid() && i in view.live && IsSlot(i)
      modifies this`view, pool
      ensures Valid() && view == SetRef(old(view), i, ref)
    {
      Store(i, WithRef(pool[i].stream, ref));
    }

    method ResetTurn(iter: int, ghost t: Sys, ghost done: seq<int>, ghost rest: seq<int>, ghost s: Sys) returns (next: int)
      requires ResettingAt(t, done, rest, s, iter) && rest != []
      modifies this`view, pool
      ensures IsSlot(rest[0])
      ensures ResettingAt(SetRef(t, rest[0], Unwatched), done + [rest[0]], rest[1..], s, next)
    {
      ResetStep(t, done, rest, s);
      SetPollRef(iter, Unwatched);
      next := Successor(iter);
    }

    method ResetPollRefs()
      requires Valid()
      modifies this`view, pool
      ensures Valid() && AllSlots(old(view).live) && view == ResetRefs(old(view), old(view).live)
    {
      ghost var s, t, done, rest := view, view, [], view.live;
      ResetStart(s);
      var iter := head;
      while iter != NULL
        invariant ResettingAt(t, done, rest, s, iter)
        decreases |rest|
      {
        ghost var i := rest[0];
        iter := ResetTurn(iter, t, done, rest, s);
        t, done, rest := SetRef(t, i, Unwatched), done + [i], rest[1..];
      }
    }

    /** Adds one stream to poll's array, if it has events. */
    method AssignTurn(iter: int, list: array<PollFd>, len: nat, ghost t: Sys, ghost done: seq<int>, ghost rest: seq<int>, ghost u: Sys)
      returns (next: int, len': nat, ghost t': Sys)
      requires len <= list.Length == POOL_SIZE
      requires AssigningAt(t, done, rest, u, list[..len], iter) && rest != []
      modifies this`view, pool, list
      ensures len' <= list.Length
      ensures AssigningAt(t', done + [rest[0]], rest[1..], u, list[..len'], next)
    {
      AssignStep(t, done, rest, u, list[..len]);
      len', t' := len, t;
      var x := pool[iter].stream;
      if x.events.Any() {
        ghost var before := list[..len];
        list[len] := PollFd(x.fd, x.events.Armed());
        assert list[..len + 1] == before + [PollFd(x.fd, x.events.Armed())];
        SetPollRef(iter, InPollList(len));
        t' := SetRef(t, rest[0], InPollList(len));
        len' := len + 1;
      }
      next := Successor(iter);
    }

    /** The array poll is given, never longer than the pool. */
    method BuildPollList() returns (list: array<PollFd>, len: nat)
      requires Valid()
      modifies this`view, pool
      ensures Valid() && AllSlots(old(view).live) && view == BuildPoll(old(view))
      ensures fresh(list) && len <= list.Length == POOL_SIZE && list[..len] == PollList(old(view), old(view).live)
    {
      AssignStart(view);
      ResetPollRefs();
      list := new PollFd[POOL_SIZE](_ => PollFd(-1, NONE));
      len := 0;
      ghost var u, t, done, rest := view, view, [], view.live;
      var iter := head;
      while iter != NULL
        invariant len <= list.Length
        invariant AssigningAt(t, done, rest, u, list[..len], iter)
        decreases |rest|
      {
        ghost var i := rest[0];
        iter, len, t := AssignTurn(iter, list, len, t, done, rest, u);
        done, rest := done + [i], rest[1..];
      }
      AssignEnd(t, done, rest, u, list[..len]);
    }

    /** poll: what is reported for each entry, and for how many entries anything is. */
    static method Poll(list: array<PollFd>, len: nat, ready: seq<Ready>) returns (revents: array<Events>, nfds: nat)
      requires len <= list.Length
      ensures revents.Length == len && PollAnswer(revents[..], list[..len], ready)
      ensures nfds > 0 <==> AnyFired(revents[..])
    {
      revents := new Events[len](_ => NONE);
      nfds := 0;
      for k := 0 to len
        invariant forall m :: 0 <= m < k ==> revents[m] == Clip(Reported(ready, list[m].fd), list[m].mask)
        invariant nfds > 0 <==> exists m :: 0 <= m < k && revents[m].Any()
      {
        revents[k] := Clip(Reported(ready, list[k].fd), list[k].mask);
        if revents[k].Any() {
          nfds := nfds + 1;
        }
      }
    }

    method SetRevents(i: int, revents: Events)
      requires Valid() && i in view.live && IsSlot(i)
      modifies this`view, pool
      ensures Valid() && view == GiveRevents(old(view), i, revents)
    {
      Store(i, pool[i].stream.(revents := revents));
    }

    ghost predicate DeliveringAt(t: Sys, done: seq<int>, rest: seq<int>, s: Sys, ready: seq<Ready>, iter: int)
      reads this, pool
    {
      At(t, rest, iter) && Delivering(t, done, rest, s, ready)
    }

    /** update_revents_poll, one stream. */
    method UpdateTurnPoll(iter: int, revents: seq<Events>, ghost list: seq<PollFd>, ghost ready: seq<Ready>,
                          ghost t: Sys, ghost done: seq<int>, ghost rest: seq<int>, ghost s: Sys)
      returns (next: int, ghost t': Sys)
      requires DeliveringAt(t, done, rest, s, ready, iter) && rest != []
      requires PollAnswer(revents, list, ready) && AllRefer(s, list)
      modifies this`view, pool
      ensures DeliveringAt(t', done + [rest[0]], rest[1..], s, ready, next)
    {
      DeliverStep(t, done, rest, s, ready);
      ReferOne(s, done, rest, list);
      var x := pool[iter].stream;
      var r := if x.pollref.InPollList? && x.pollref.index < |revents| then revents[x.pollref.index] else NONE;
      SetRevents(iter, r);
      t' := GiveRevents(t, rest[0], r);
      next := Successor(iter);
    }

    method UpdateReventsPoll(revents: seq<Events>, ghost list: seq<PollFd>, ghost ready: seq<Ready>)
      requires Valid() && PollAnswer(revents, list, ready) && AllRefer(view, list)
      modifies this`view, pool
      ensures Valid() && view == Deliver(old(view), ready)
    {
      ghost var s, t, done, rest := view, view, [], view.live;
      DeliverStart(s, ready);
      var iter := head;
      while iter != NULL
        invariant DeliveringAt(t, done, rest, s, ready, iter)
        decreases |rest|
      {
        ghost var i := rest[0];
        iter, t := UpdateTurnPoll(iter, revents, list, ready, t, done, rest, s);
        done, rest := done + [i], rest[1..];
      }
      DeliverEnd(t, done, rest, s, ready);
    }

    /** poll on the list just built, and the events it reports read back. */
    method CollectPoll(list: array<PollFd>, len: nat, w: Wait) returns (nfds: nat)
      requires Valid() && len <= list.Length && AllRefer(view, list[..len]) && list[..len] == PollList(view, view.live)
      modifies this`view, pool
      ensures Valid() && view == Deliver(Arrive(old(view), w.arrivals), w.ready)
      ensures AllSlots(view.live) && (nfds > 0 <==> Busy(view))
    {
      ghost var b := view;
      ReceiveArrivals(w.arrivals);
      ArrivalsRefer(b, w.arrivals, list[..len]);
      var revents;
      revents, nfds := Poll(list, len, w.ready);
      UpdateReventsPoll(revents[..], list[..len], w.ready);
      PollBusy(b, w.arrivals, list[..len], revents[..], w.ready);
    }

    /** Waiting with poll: rebuild the list, wait, read back what was reported. */
    method WatchStreamsPoll(w: Wait) returns (status: int)
      requires Valid() && Base(view) && os.epfd < 0
      modifies this`view, pool
      ensures Valid() && view == WatchStreams(old(view), w).0 && Sign(status) == WatchStreams(old(view), w).1
    {
      PollPrepared(view);
      PrepareKeeps(view, w.fails);
      var list, len := BuildPollList();
      if w.error {
        return -1;
      }
      status := CollectPoll(list, len, w);
    }

    /** One epoll_ctl and the notes taken of it; a refusal changes nothing. */
    method ControlEpoll(i: int, op: EpollOp, fails: set<int>) returns (ok: bool)
      requires Valid() && i in view.live && IsSlot(i)
      modifies this`os, this`view, pool
      ensures Valid() && (view, ok) == Control(old(view), i, op, fails)
    {
      var x := pool[i].stream;
      match EpollCtl(os.kernel, op, x.fd, Watch(x.events.Armed(), i))
      case None =>
        return false;
      case Some(kernel) =>
        if x.fd in fails {
          return false;
        }
        ControlShape(view, i, op, fails);
        os := os.(kernel := kernel);
        view := view.(os := os);
        Store(i, if op == Del then WithRef(x, Unwatched) else x.(levents := x.events, pollref := InEpoll));
        return true;
    }

    method BuildEpollOne(i: int, fails: set<int>) returns (ok: bool)
      requires Valid() && i in view.live && IsSlot(i)
      modifies this`os, this`view, pool
      ensures Valid() && (view, ok) == EpollOne(old(view), i, fails)
    {
      var x := pool[i].stream;
      ok := true;
      if x.events.Any() {
        if x.pollref == Unwatched || x.events != x.levents {
          ok := ControlEpoll(i, if x.pollref == Unwatched then Add else Mod, fails);
        }
      } else if x.pollref != Unwatched {
        ok := ControlEpoll(i, Del, fails);
      }
    }

    ghost predicate BuildingAt(t: Sys, done: seq<int>, rest: seq<int>, s: Sys, fails: set<int>, iter: int)
      reads this, pool
    {
      At(t, rest, iter) && Building(t, done, rest, s, fails)
    }

    method BuildEpollTurn(iter: int, fails: set<int>, ghost t: Sys, ghost done: seq<int>, ghost rest: seq<int>, ghost s: Sys)
      returns (ok: bool, next: int)
      requires BuildingAt(t, done, rest, s, fails, iter) && rest != []
      modifies this`os, this`view, pool
      ensures Valid() && AllSlots(s.live)
      ensures !ok ==> (view, false) == BuildEpoll(s, s.live, fails)
      ensures ok ==> BuildingAt(view, done + [rest[0]], rest[1..], s, fails, next)
    {
      BuildStep(t, done, rest, s, fails);
      ok := BuildEpollOne(iter, fails);
      next := Successor(iter);
    }

    method BuildEpollList(fails: set<int>) returns (ok: bool)
      requires Valid()
      modifies this`os, this`view, pool
      ensures Valid() && AllSlots(old(view).live) && (view, ok) == BuildEpoll(old(view), old(view).live, fails)
    {
      ghost var s, t, done, rest := view, view, [], view.live;
      BuildStart(s, fails);
      var iter := head;
      while iter != NULL
        invariant BuildingAt(t, done, rest, s, fails, iter)
        decreases |rest|
      {
        ghost var i := rest[0];
        ok, iter := BuildEpollTurn(iter, fails, t, done, rest, s);
        if !ok {
          return;
        }
        t, done, rest := view, done + [i], rest[1..];
      }
      ok := true;
    }

    /** The first loop of update_revents_epoll. */
    method ClearTurn(iter: int, ghost t: Sys, ghost done: seq<int>, ghost rest: seq<int>, ghost s: Sys)
      returns (next: int, ghost t': Sys)
      requires DeliveringAt(t, done, rest, s, [], iter) && rest != []
      modifies this`view, pool
      ensures DeliveringAt(t', done + [rest[0]], rest[1..], s, [], next)
    {
      DeliverStep(t, done, rest, s, []);
      SetRevents(iter, NONE);
      t' := GiveRevents(t, rest[0], NONE);
      next := Successor(iter);
    }

    method ClearRevents()
      requires Valid()
      modifies this`view, pool
      ensures Valid() && view == Deliver(old(view), [])
    {
      ghost var s, t, done, rest := view, view, [], view.live;
      DeliverStart(s, []);
      var iter := head;
      while iter != NULL
        invariant DeliveringAt(t, done, rest, s, [], iter)
        decreases |rest|
      {
        ghost var i := rest[0];
        iter, t := ClearTurn(iter, t, done, rest, s);
        done, rest := done + [i], rest[1..];
      }
      DeliverEnd(t, done, rest, s, []);
    }

    /** Each delivered event goes to the stream its pointer names. */
    method UpdateReventsEpoll(fired: seq<EpollEvent>)
      requires Valid()
      requires forall k :: 0 <= k < |fired| ==> fired[k].ptr in view.live && fired[k].events.Any()
      modifies this`view, pool
      ensures Valid() && FannedOut(view, old(view), fired)
    {
      ghost var s := view;
      LiveAreSlots(s);
      ClearRevents();
      FanStart(s);
      for k := 0 to |fired|
        invariant Valid() && FannedOut(view, s, fired[..k])
      {
        FanStep(view, s, fired, k);
        SetRevents(fired[k].ptr, fired[k].events);
      }
      assert fired[..|fired|] == fired;
    }

    /** epoll_wait and the events it delivers. */
    method CollectEpoll(w: Wait) returns (nfds: nat)
      requires Valid() && Base(view) && os.epfd >= 0 && AllSettled(view)
      modifies this`view, pool
      ensures Valid() && view == Deliver(Arrive(old(view), w.arrivals), w.ready)
      ensures AllSlots(view.live) && (nfds > 0 <==> Busy(view))
    {
      EpollCollects(view, w.arrivals, w.ready);
      ReceiveArrivals(w.arrivals);
      ghost var a := view;
      var fired := Fired(os.kernel, w.ready, {});
      UpdateReventsEpoll(fired);
      FannedIsDelivered(view, a, w.ready);
      nfds := |fired|;
    }

    method WatchStreamsEpoll(w: Wait) returns (status: int)
      requires Valid() && Base(view) && os.epfd >= 0
      modifies this`os, this`view, pool
      ensures Valid() && view == WatchStreams(old(view), w).0 && Sign(status) == WatchStreams(old(view), w).1
    {
      LiveAreSlots(view);
      PrepareKeeps(view, w.fails);
      BuildEpollAgrees(view, view.live, w.fails);
      var ok := BuildEpollList(w.fails);
      if !ok || w.error {
        return -1;
      }
      status := CollectEpoll(w);
    }

    method Wait(w: Runs.Wait) returns (status: int)
      requires Valid() && Base(view)
      modifies this`os, this`view, pool
      ensures Valid() && view == WatchStreams(old(view), w).0 && Sign(status) == WatchStreams(old(view), w).1
    {
      if os.epfd >= 0 {
        status := WatchStreamsEpoll(w);
      } else {
        status := WatchStreamsPoll(w);
      }
    }

    // -------------------------------------------------------------------------------------------
    // Cycles
    // -------------------------------------------------------------------------------------------

    /** One step of the walk: whatever arrives first, then the stream's turn. */
    method VisitStream(i: int, e: Env) returns (ok: bool, ghost victim: int)
      requires Valid() && Base(view) && i in view.live
      modifies this, pool
      ensures Valid() && Outcome(view, ok, victim) == Visit(old(view), i, e)
    {
      ArriveSound(view, e.arrivals);
      SoftBase(view, Arrive(view, e.arrivals), {});
      ReceiveArrivals(e.arrivals);
      assert IsSlot(i);
      ok, victim := true, NULL;
      var x := pool[i].stream;
      if !x.abandoned && x.revents.Any() {
        if x.revents.err || x.revents.hup {
          RemoveRelation(i);
        } else {
          ok, victim := HandleStreamEvents(i, e);
        }
      }
    }

    ghost predicate WalkingAt(iter: int, visits: seq<Env>, w: WalkResult)
      reads this, pool
    {
      && Valid() && Base(view) && (iter == NULL || iter in view.live)
      && Walk(view, iter, visits).s == w.s && Walk(view, iter, visits).ok == w.ok
    }

    method WalkTurnOf(iter: int, visits: seq<Env>, ghost w: WalkResult) returns (ok: bool, next: int)
      requires WalkingAt(iter, visits, w) && iter != NULL
      modifies this, pool
      ensures Valid() && (!ok ==> view == w.s && !w.ok)
      ensures ok ==> WalkingAt(next, Rest(visits), w)
      ensures ok ==> Potential(view.st) < old(Potential(view.st)) ||
                     (Potential(view.st) == old(Potential(view.st)) && |From(view.live, next)| < old(|From(view.live, iter)|))
    {
      WalkProgress(view, iter, Next(visits));
      WalkTurn(view, iter, visits);
      next := Successor(iter);
      ghost var victim;
      ok, victim := VisitStream(iter, Next(visits));
    }

    /** The successor is saved before each turn; the loop ends whatever the turns do to the list. */
    method WalkStreams(visits: seq<Env>) returns (ok: bool)
      requires Valid() && Base(view)
      modifies this, pool
      ensures Valid() && view == Walk(old(view), Head(old(view)), visits).s && ok == Walk(old(view), Head(old(view)), visits).ok
    {
      ghost var w := Walk(view, Head(view), visits);
      var iter, left := head, visits;
      while iter != NULL
        invariant WalkingAt(iter, left, w)
        decreases Potential(view.st), |From(view.live, iter)|
      {
        ok, iter := WalkTurnOf(iter, left, w);
        if !ok {
          return;
        }
        left := Rest(left);
      }
      ok := true;
    }

    method HandleStreamsCycle(c: CycleEnv) returns (ok: bool)
      requires Valid() && Base(view)
      modifies this, pool
      ensures Valid() && view == Cycle(old(view), c).s && ok == Cycle(old(view), c).ok
    {
      CleanupBase(view);
      CleanupStreams();
      WatchBase(view, c.wait);
      var status := Wait(c.wait);
      if status < 0 {
        return false;
      }
      if status == 0 {
        MarkPendingBase(view, view.live);
        RemovePendingStreams();
        CleanupStreams();
        return true;
      }
      ok := WalkStreams(c.visits);
    }

    // -------------------------------------------------------------------------------------------
    // The proxy task
    // -------------------------------------------------------------------------------------------

    constructor ()
      ensures Valid() && fresh(pool) && view == Zero()
    {
      pool := new Slot[POOL_SIZE](_ => Slot(false, NULL, NULL, Blank(0)));
      head, tail := NULL, NULL;
      os := Zero().os;
      view := Zero();
    }

    /** Set-up: an epoll descriptor if possible, then the listening socket and its stream. */
    method Start(epfd: int, listen: Dialing) returns (ok: bool)
      requires Valid() && view == Zero()
      modifies this, pool
      ensures Valid() && (view, ok) == Boot(epfd, listen)
    {
      if epfd >= 0 {
        os := Os(epfd, os.fds.Open(epfd), map[]);
        view := view.(os := os);
      }
      match listen
      case NoSocket =>
        CloseEpollFd();
        return false;
      case Refused(fd) =>
        if fd >= 0 && fd !in os.fds.open {
          OpenSocket(fd);
          CloseSocket(fd);
        }
        CloseEpollFd();
        return false;
      case Pending(fd) =>
        if !(fd >= 0 && fd !in os.fds.open) {
          CloseEpollFd();
          return false;
        }
        OpenSocket(fd);
        StartListening(fd);
        return true;
    }

    /** The listening socket gets the first stream. */
    method StartListening(fd: int)
      requires Valid() && view.live == []
      modifies this, pool
      ensures Valid() && view == AddListener(old(view), fd)
    {
      ghost var o := view;
      assert FreeFrom(o.live, 0, POOL_SIZE) == 0;
      assert [0] + o.live == [0];
      var i := InsertStream(fd);
      Store(i, pool[i].stream.(role := Listener, events := IN));
      assert view.st == AddListener(o, fd).st;
    }

    method CloseEpollFd()
      requires Valid()
      modifies this`os, this`view
      ensures Valid() && view == CloseEpoll(old(view))
    {
      if os.epfd >= 0 {
        os := os.(fds := os.fds.Close(os.epfd));
        view := view.(os := os);
      }
    }

    /**
     * proxy_task, followed for as long as `cs` says what the outside world does.  When it returns
     * because a cycle failed, everything is removed and closed; otherwise it is still running.
     */
    method ProxyTask(epfd: int, listen: Dialing, cs: seq<CycleEnv>) returns (running: bool)
      requires Valid() && view == Zero()
      modifies this, pool
      ensures Valid() && (view, running) == Life(epfd, listen, cs)
      ensures !running ==> AllClosed(os)
    {
      NoDescriptorLeaks(epfd, listen, cs);
      running := Start(epfd, listen);
      if !running {
        return;
      }
      running := RunCycles(cs);
      if !running {
        RemoveAllStreams();
        CloseEpollFd();
      }
    }

    method RunCycles(cs: seq<CycleEnv>) returns (ok: bool)
      requires Valid() && Base(view)
      modifies this, pool
      ensures Valid() && Base(view) && view == Run(old(view), cs).s && ok == Run(old(view), cs).ok
    {
      ghost var s := view;
      var left := cs;
      ok := true;
      while left != []
        invariant Valid() && Base(view) && ok
        invariant Run(view, left).s == Run(s, cs).s && Run(view, left).ok == Run(s, cs).ok
        decreases |left|
      {
        CycleBase(view, left[0]);
        ok := HandleStreamsCycle(left[0]);
        if !ok {
          return;
        }
        left := left[1..];
      }
    }
  }
}
