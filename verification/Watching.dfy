/**
 * Between walks: removing streams in bulk, and waiting for events.  poll rebuilds its list from
 * scratch each time; epoll is told only what changed since the last time.
 */
module Watching {
  import opened Bytes
  import opened PollEvents
  import opened LiveLists
  import opened Socks
  import opened Streams
  import opened BaseInvariant
  import opened Relations

  // ---------------------------------------------------------------------------------------------
  // Bulk removal
  // ---------------------------------------------------------------------------------------------

  /** Members of a part of the list that are all live and in list order. */
  ghost predicate PartOf(l: seq<int>, s: Sys)
    requires Shape(s)
  {
    Descending(l, s.stamp) && forall x :: x in l ==> x in s.live
  }

  function Chosen(l: seq<int>, doomed: set<int>): (r: set<int>)
    ensures forall x :: x in r <==> x in l && x in doomed
  {
    if l == [] then {} else (if l[0] in doomed then {l[0]} else {}) + Chosen(l[1..], doomed)
  }

  /** The loop of cleanup_streams and remove_all_streams: the doomed members of `l` are removed in turn. */
  function Purge(s: Sys, l: seq<int>, doomed: set<int>): Sys
    requires Shape(s) && PartOf(l, s)
    decreases |l|
  {
    if l == [] then s
    else
      DescendingHead(l, s.stamp);
      if l[0] in doomed then
        RemoveShape(s, l[0]);
        Purge(Remove(s, l[0]), l[1..], doomed)
      else Purge(s, l[1..], doomed)
  }

  lemma {:induction false} PurgeBase(s: Sys, l: seq<int>, doomed: set<int>)
    requires Base(s) && PartOf(l, s)
    ensures Base(Purge(s, l, doomed))
    decreases |l|
  {
    if l != [] {
      DescendingHead(l, s.stamp);
      if l[0] in doomed {
        RemoveShape(s, l[0]);
        RemoveConserves(s, l[0], {});
        RemoveAgrees(s, l[0], {});
        PurgeBase(Remove(s, l[0]), l[1..], doomed);
      } else {
        PurgeBase(s, l[1..], doomed);
      }
    }
  }

  /** Bulk removal filters the list, keeping its order. */
  lemma {:induction false} PurgeFilters(s: Sys, l: seq<int>, doomed: set<int>)
    requires Shape(s) && PartOf(l, s)
    ensures Shape(Purge(s, l, doomed)) && Purge(s, l, doomed).live == Sieve(s.live, Chosen(l, doomed))
    decreases |l|
  {
    if l == [] {
      SieveNothing(s.live, {});
    } else {
      DescendingHead(l, s.stamp);
      if l[0] in doomed {
        RemoveShape(s, l[0]);
        PurgeFilters(Remove(s, l[0]), l[1..], doomed);
        SieveTwice(s.live, {l[0]}, Chosen(l[1..], doomed));
      } else {
        PurgeFilters(s, l[1..], doomed);
        assert Chosen(l, doomed) == Chosen(l[1..], doomed);
      }
    }
  }

  /** Nothing but the descriptors of the removed streams changes in the slots. */
  lemma {:induction false} PurgeSpares(s: Sys, l: seq<int>, doomed: set<int>)
    requires Shape(s) && PartOf(l, s)
    ensures var t := Purge(s, l, doomed);
      && |t.st| == POOL_SIZE && t.stamp == s.stamp && t.clock == s.clock
      && t.evictions == s.evictions && t.os.epfd == s.os.epfd
      && forall i :: IsSlot(i) ==> t.st[i] == s.st[i] || (i in l && i in doomed && t.st[i] == s.st[i].(fd := -1))
    decreases |l|
  {
    if l != [] {
      DescendingHead(l, s.stamp);
      if l[0] in doomed {
        RemoveShape(s, l[0]);
        PurgeSpares(Remove(s, l[0]), l[1..], doomed);
      } else {
        PurgeSpares(s, l[1..], doomed);
      }
    }
  }

  /** cleanup_streams. */
  function Cleanup(s: Sys): Sys
    requires Shape(s)
  {
    Purge(s, s.live, AbandonedIn(s)).(evictions := 0)
  }

  /** remove_all_streams. */
  function RemoveAll(s: Sys): Sys
    requires Shape(s)
  {
    Purge(s, s.live, set x | x in s.live)
  }

  /** cleanup_streams is exactly an order-preserving filter: the streams in service stay as they were. */
  lemma CleanupFilters(s: Sys)
    requires Shape(s)
    ensures var t := Cleanup(s);
      && Shape(t) && t.live == Sieve(s.live, AbandonedIn(s))
      && t.stamp == s.stamp && t.clock == s.clock && t.os.epfd == s.os.epfd
      && forall i :: i in t.live ==> i in s.live && t.st[i] == s.st[i] && !t.st[i].abandoned
    ensures Roles(s) ==> Roles(Cleanup(s))
  {
    PurgeFilters(s, s.live, AbandonedIn(s));
    PurgeSpares(s, s.live, AbandonedIn(s));
    assert Chosen(s.live, AbandonedIn(s)) == AbandonedIn(s);
  }

  lemma CleanupBase(s: Sys)
    requires Base(s)
    ensures Base(Cleanup(s))
  {
    PurgeBase(s, s.live, AbandonedIn(s));
    var t := Purge(s, s.live, AbandonedIn(s));
    assert LiveFds(t.(evictions := 0)) == LiveFds(t);
  }

  /** remove_all_streams leaves no stream, no registration and no descriptor but epoll's. */
  lemma RemoveAllEmpties(s: Sys)
    requires Base(s)
    ensures var t := RemoveAll(s);
      && t.live == [] && t.os.kernel == map[] && t.os.epfd == s.os.epfd
      && t.os.fds.open == EpollFd(s.os)
      && t.os.fds.acquired == t.os.fds.released + multiset(t.os.fds.open)
  {
    PurgeBase(s, s.live, set x | x in s.live);
    PurgeSpares(s, s.live, set x | x in s.live);
    RemoveAllList(s);
    NothingLive(RemoveAll(s));
  }

  lemma RemoveAllList(s: Sys)
    requires Shape(s)
    ensures Shape(RemoveAll(s)) && RemoveAll(s).live == []
  {
    PurgeFilters(s, s.live, set x | x in s.live);
    SieveEverything(s.live, Chosen(s.live, set x | x in s.live));
  }

  lemma NothingLive(s: Sys)
    requires Base(s) && s.live == []
    ensures s.os.kernel == map[] && s.os.fds.open == EpollFd(s.os)
  {
    assert LiveFds(s) == {};
  }

  /** Removing the abandoned streams completes every pair that is left and resets the account of evictions. */
  lemma CleanupRelated(s: Sys)
    requires Base(s) && Related(s) && PairsSafe(s)
    ensures Shape(Cleanup(s)) && Related(Cleanup(s)) && PairsSafe(Cleanup(s))
  {
    CleanupFilters(s);
    var t := Cleanup(s);
    forall x | x in t.live
      ensures RelatedAt(t, x) && SafeAt(t, x)
    {
      assert RelatedAt(s, x) && SafeAt(s, x);
    }
  }

  // ---------------------------------------------------------------------------------------------
  // Quiet cycles
  // ---------------------------------------------------------------------------------------------

  /** A client or endpoint that has not got as far as forwarding. */
  predicate IsPending(x: Stream) {
    (x.role == Client || x.role == Endpoint) && x.level != Forwarding
  }

  function MarkOne(s: Sys, i: int): Sys
    requires Shape(s) && IsSlot(i)
  {
    if IsPending(s.st[i]) then Abandon(s, i) else s
  }

  /** The loop of remove_pending_streams. */
  function MarkPending(s: Sys, l: seq<int>): Sys
    requires Shape(s) && forall x :: x in l ==> x in s.live
    decreases |l|
  {
    if l == [] then s
    else
      AbandonShape(s, l[0]);
      MarkPending(MarkOne(s, l[0]), l[1..])
  }

  lemma {:induction false} MarkPendingBase(s: Sys, l: seq<int>)
    requires Base(s) && forall x :: x in l ==> x in s.live
    ensures Base(MarkPending(s, l))
    decreases |l|
  {
    if l != [] {
      AbandonBase(s, l[0], {});
      MarkPendingBase(MarkOne(s, l[0]), l[1..]);
    }
  }

  lemma {:induction false} MarkPendingRelated(s: Sys, l: seq<int>)
    requires Shape(s) && Related(s) && PairsSafe(s) && s.evictions == 0 && forall x :: x in l ==> x in s.live
    ensures var t := MarkPending(s, l); Shape(t) && Related(t) && PairsSafe(t)
    decreases |l|
  {
    if l != [] {
      AbandonShape(s, l[0]);
      NobodyStale(s, l[0]);
      AbandonRelated(s, l[0]);
      MarkPendingRelated(MarkOne(s, l[0]), l[1..]);
    }
  }

  /** Only pending streams are marked: the neighbour of a pending stream is pending too. */
  lemma MarkOneExact(s: Sys, i: int)
    requires Shape(s) && Related(s) && PairsSafe(s) && s.evictions == 0 && i in s.live
    ensures var t := MarkOne(s, i);
      && Shape(t) && Related(t) && PairsSafe(t) && t.evictions == 0 && t.live == s.live
      && (forall k :: IsSlot(k) ==> t.st[k] == s.st[k].(abandoned := t.st[k].abandoned) && (s.st[k].abandoned ==> t.st[k].abandoned))
      && (forall k :: IsSlot(k) && t.st[k].abandoned && !s.st[k].abandoned ==> IsPending(s.st[k]))
      && (IsPending(s.st[i]) ==> t.st[i].abandoned)
  {
    AbandonShape(s, i);
    NobodyStale(s, i);
    AbandonRelated(s, i);
    assert RelatedAt(s, i);
  }

  /**
   * When nobody is abandoned, the time-out marks exactly the clients and endpoints that are not
   * forwarding: their neighbours are not forwarding either, so no pair in use is lost.
   */
  lemma {:induction false} MarkPendingExact(s: Sys, l: seq<int>)
    requires Shape(s) && Related(s) && PairsSafe(s) && s.evictions == 0
    requires forall x :: x in l ==> x in s.live
    ensures var t := MarkPending(s, l);
      && Shape(t) && t.live == s.live
      && (forall k :: IsSlot(k) && s.st[k].abandoned ==> t.st[k].abandoned)
      && (forall k :: IsSlot(k) && t.st[k].abandoned && !s.st[k].abandoned ==> IsPending(s.st[k]))
      && (forall i :: i in l && IsPending(s.st[i]) ==> t.st[i].abandoned)
    decreases |l|
  {
    if l != [] {
      MarkOneExact(s, l[0]);
      MarkPendingExact(MarkOne(s, l[0]), l[1..]);
      assert l == [l[0]] + l[1..];
    }
  }

  // ---------------------------------------------------------------------------------------------
  // poll
  // ---------------------------------------------------------------------------------------------

  predicate AllSlots(l: seq<int>) {
    forall k :: 0 <= k < |l| ==> IsSlot(l[k])
  }

  datatype PollFd = PollFd(fd: int, mask: Events)

  /** The array poll is given: one entry for each stream with events, in list order. */
  function PollList(s: Sys, l: seq<int>): (r: seq<PollFd>)
    requires |s.st| == POOL_SIZE && AllSlots(l)
    ensures |r| <= |l|
  {
    if l == [] then []
    else (if s.st[l[0]].events.Any() then [PollFd(s.st[l[0]].fd, s.st[l[0]].events.Armed())] else []) + PollList(s, l[1..])
  }

  /** Only registrations differ. */
  ghost predicate SameButRefs(s: Sys, t: Sys) {
    && t.live == s.live && t.stamp == s.stamp && t.clock == s.clock && t.evictions == s.evictions
    && t.os == s.os.(kernel := t.os.kernel) && |s.st| == POOL_SIZE && |t.st| == POOL_SIZE
    && forall i :: IsSlot(i) ==> t.st[i] == s.st[i].(pollref := t.st[i].pollref, levents := t.st[i].levents)
  }

  function WithRef(x: Stream, ref: PollRef): Stream {
    x.(pollref := ref)
  }

  function SetRef(s: Sys, i: int, ref: PollRef): Sys
    requires |s.st| == POOL_SIZE && IsSlot(i)
  {
    s.(st := s.st[i := WithRef(s.st[i], ref)])
  }

  /** The first loop of build_poll_list: every reference is forgotten. */
  function ResetRefs(s: Sys, l: seq<int>): Sys
    requires |s.st| == POOL_SIZE && AllSlots(l)
    decreases |l|
  {
    if l == [] then s else ResetRefs(SetRef(s, l[0], Unwatched), l[1..])
  }

  /** The second loop: each stream with events refers to its entry, counted from `n`. */
  function AssignRefs(s: Sys, l: seq<int>, n: nat): Sys
    requires |s.st| == POOL_SIZE && AllSlots(l)
    decreases |l|
  {
    if l == [] then s
    else if s.st[l[0]].events.Any() then AssignRefs(SetRef(s, l[0], InPollList(n)), l[1..], n + 1)
    else AssignRefs(s, l[1..], n)
  }

  /** build_poll_list, as far as it changes the streams. */
  function BuildPoll(s: Sys): Sys
    requires |s.st| == POOL_SIZE && AllSlots(s.live)
  {
    ResetRefsFrame(s, s.live);
    AssignRefs(ResetRefs(s, s.live), s.live, 0)
  }

  lemma {:induction false} ResetRefsFrame(s: Sys, l: seq<int>)
    requires |s.st| == POOL_SIZE && AllSlots(l)
    ensures SameButRefs(s, ResetRefs(s, l)) && ResetRefs(s, l).os == s.os
    ensures forall k :: 0 <= k < |l| ==> ResetRefs(s, l).st[l[k]].pollref == Unwatched
    ensures forall i :: IsSlot(i) && s.st[i].pollref == Unwatched ==> ResetRefs(s, l).st[i].pollref == Unwatched
    decreases |l|
  {
    if l != [] {
      ResetRefsFrame(SetRef(s, l[0], Unwatched), l[1..]);
    }
  }

  /** Each stream with events refers to the entry that is its own; the others refer to none. */
  predicate RefersTo(x: Stream, list: seq<PollFd>, n: nat) {
    if x.events.Any() then
      x.pollref.InPollList? && n <= x.pollref.index < n + |list| && list[x.pollref.index - n] == PollFd(x.fd, x.events.Armed())
    else x.pollref == Unwatched
  }

  lemma RefersFurther(x: Stream, first: seq<PollFd>, list: seq<PollFd>, n: nat)
    requires RefersTo(x, list, n + |first|)
    ensures RefersTo(x, first + list, n)
  {
  }

  lemma {:induction false} AssignRefsRefer(s: Sys, l: seq<int>, n: nat)
    requires |s.st| == POOL_SIZE && AllSlots(l)
    requires forall k, m :: 0 <= k < m < |l| ==> l[k] != l[m]
    requires forall k :: 0 <= k < |l| ==> s.st[l[k]].pollref == Unwatched
    ensures var t := AssignRefs(s, l, n);
      && SameButRefs(s, t) && t.os == s.os
      && (forall i :: IsSlot(i) && i !in l ==> t.st[i] == s.st[i])
      && (forall k :: 0 <= k < |l| ==> RefersTo(t.st[l[k]], PollList(s, l), n))
    decreases |l|
  {
    if l != [] {
      var any := s.st[l[0]].events.Any();
      var u := if any then SetRef(s, l[0], InPollList(n)) else s;
      var m := if any then n + 1 else n;
      AssignRefsRefer(u, l[1..], m);
      SamePollList(s, u, l[1..]);
      var t := AssignRefs(s, l, n);
      assert l[0] !in l[1..];
      var list := if any then [PollFd(s.st[l[0]].fd, s.st[l[0]].events.Armed())] else [];
      assert PollList(s, l) == list + PollList(u, l[1..]) && m == n + |list|;
      forall k | 0 <= k < |l|
        ensures RefersTo(t.st[l[k]], PollList(s, l), n)
      {
        if k > 0 {
          assert l[k] == l[1..][k - 1];
          RefersFurther(t.st[l[k]], list, PollList(u, l[1..]), n);
        }
      }
    }
  }

  lemma {:induction false} SamePollList(s: Sys, t: Sys, l: seq<int>)
    requires |s.st| == POOL_SIZE && |t.st| == POOL_SIZE && AllSlots(l)
    requires forall i :: IsSlot(i) ==> t.st[i].events == s.st[i].events && t.st[i].fd == s.st[i].fd
    ensures PollList(t, l) == PollList(s, l)
  {
    if l != [] {
      SamePollList(s, t, l[1..]);
    }
  }

  lemma BuildPollRefers(s: Sys)
    requires Shape(s) && AllSlots(s.live)
    ensures var t := BuildPoll(s);
      && SameButRefs(s, t) && t.os == s.os
      && forall k :: 0 <= k < |s.live| ==> RefersTo(t.st[s.live[k]], PollList(s, s.live), 0)
  {
    ResetRefsFrame(s, s.live);
    AssignRefsRefer(ResetRefs(s, s.live), s.live, 0);
    SamePollList(s, ResetRefs(s, s.live), s.live);
  }

  // ---------------------------------------------------------------------------------------------
  // epoll
  // ---------------------------------------------------------------------------------------------

  datatype EpollOp = Add | Mod | Del

  /** epoll_ctl: adding a registered descriptor or changing an unregistered one is an error. */
  function EpollCtl(kernel: map<int, Watch>, op: EpollOp, fd: int, w: Watch): Option<map<int, Watch>> {
    match op
    case Add => if fd in kernel then None else Some(kernel[fd := w])
    case Mod => if fd in kernel then Some(kernel[fd := w]) else None
    case Del => if fd in kernel then Some(kernel - {fd}) else None
  }

  function Register(s: Sys, i: int, kernel: map<int, Watch>): Sys
    requires |s.st| == POOL_SIZE && IsSlot(i)
  {
    var x := s.st[i];
    s.(os := s.os.(kernel := kernel), st := s.st[i := x.(levents := x.events, pollref := InEpoll)])
  }

  function Unregister(s: Sys, i: int, kernel: map<int, Watch>): Sys
    requires |s.st| == POOL_SIZE && IsSlot(i)
  {
    s.(os := s.os.(kernel := kernel), st := s.st[i := WithRef(s.st[i], Unwatched)])
  }

  /** What build_epoll_list does about one stream; `fails` are descriptors the kernel refuses for its own reasons. */
  function EpollOne(s: Sys, i: int, fails: set<int>): (Sys, bool)
    requires |s.st| == POOL_SIZE && IsSlot(i)
  {
    var x := s.st[i];
    if x.events.Any() then
      if x.pollref == Unwatched || x.events != x.levents then
        match EpollCtl(s.os.kernel, if x.pollref == Unwatched then Add else Mod, x.fd, Watch(x.events.Armed(), i))
        case None => (s, false)
        case Some(kernel) => if x.fd in fails then (s, false) else (Register(s, i, kernel), true)
      else (s, true)
    else if x.pollref != Unwatched then
      match EpollCtl(s.os.kernel, Del, x.fd, Watch(NONE, i))
      case None => (s, false)
      case Some(kernel) => if x.fd in fails then (s, false) else (Unregister(s, i, kernel), true)
    else (s, true)
  }

  function BuildEpoll(s: Sys, l: seq<int>, fails: set<int>): (Sys, bool)
    requires |s.st| == POOL_SIZE && AllSlots(l)
    decreases |l|
  {
    if l == [] then (s, true)
    else
      var (t, ok) := EpollOne(s, l[0], fails);
      if ok then BuildEpoll(t, l[1..], fails) else (t, false)
  }

  /** The registration a stream should have, told from its events alone. */
  predicate Settled(x: Stream) {
    if x.events.Any() then x.pollref != Unwatched && x.levents == x.events else x.pollref == Unwatched
  }

  lemma RefsBase(s: Sys, t: Sys)
    requires Base(s) && SameButRefs(s, t)
    ensures Shape(t) && Sound(t) && Conserved(t, {}) && LiveFds(t) == LiveFds(s)
  {
    assert forall i :: i in s.live ==> IsSlot(i) && t.st[i].fd == s.st[i].fd;
  }

  ghost predicate DistinctFds(s: Sys)
    requires Shape(s)
  {
    forall i, j :: i in s.live && j in s.live && i != j ==> s.st[i].fd != s.st[j].fd
  }

  lemma RegisterAgrees(s: Sys, t: Sys, i: int)
    requires Shape(s) && DistinctFds(s) && KernelAgrees(s) && s.os.epfd >= 0 && i in s.live
    requires t == Register(s, i, s.os.kernel[s.st[i].fd := Watch(s.st[i].events.Armed(), i)])
    requires Shape(t) && LiveFds(t) == LiveFds(s)
    ensures KernelAgrees(t)
  {
    assert t.st[i].fd in LiveFds(t);
    forall j | j in t.live
      ensures RegisteredAt(t, j)
    {
      assert RegisteredAt(s, j);
    }
  }

  lemma UnregisterAgrees(s: Sys, t: Sys, i: int)
    requires Shape(s) && DistinctFds(s) && KernelAgrees(s) && s.os.epfd >= 0 && i in s.live
    requires t == Unregister(s, i, s.os.kernel - {s.st[i].fd})
    requires Shape(t) && LiveFds(t) == LiveFds(s)
    ensures KernelAgrees(t)
  {
    forall j | j in t.live
      ensures RegisteredAt(t, j)
    {
      assert RegisteredAt(s, j);
      UnregisteredAt(s, i, j);
    }
  }

  lemma UnregisteredAt(s: Sys, i: int, j: int)
    requires |s.st| == POOL_SIZE && IsSlot(i) && IsSlot(j) && RegisteredAt(s, j) && (i != j ==> s.st[i].fd != s.st[j].fd)
    ensures RegisteredAt(Unregister(s, i, s.os.kernel - {s.st[i].fd}), j)
  {
  }

  lemma RegisterRefs(s: Sys, i: int, kernel: map<int, Watch>)
    requires |s.st| == POOL_SIZE && IsSlot(i)
    ensures var t := Register(s, i, kernel);
      SameButRefs(s, t) && forall j :: IsSlot(j) && j != i ==> t.st[j] == s.st[j]
    ensures var t := Unregister(s, i, kernel);
      SameButRefs(s, t) && forall j :: IsSlot(j) && j != i ==> t.st[j] == s.st[j]
  {
  }

  /** Only operations the kernel can perform are asked for. */
  lemma EpollOneCases(s: Sys, i: int, fails: set<int>)
    requires |s.st| == POOL_SIZE && IsSlot(i) && RegisteredAt(s, i)
    ensures var (t, ok) := EpollOne(s, i, fails);
      var x := s.st[i];
      && (t == s || t == Register(s, i, s.os.kernel[x.fd := Watch(x.events.Armed(), i)]) || t == Unregister(s, i, s.os.kernel - {x.fd}))
      && (ok ==> Settled(t.st[i]))
      && (x.fd !in fails ==> ok)
  {
  }

  /**
   * The step on one stream asks the kernel only for operations it can perform, keeps the agreement,
   * and leaves the stream registered as it should be.
   */
  lemma EpollOneAgrees(s: Sys, i: int, fails: set<int>)
    requires Base(s) && s.os.epfd >= 0 && i in s.live
    ensures var (t, ok) := EpollOne(s, i, fails);
      && SameButRefs(s, t) && Base(t)
      && (ok ==> Settled(t.st[i]))
      && (s.st[i].fd !in fails ==> ok)
      && forall j :: IsSlot(j) && j != i ==> t.st[j] == s.st[j]
  {
    var (t, ok) := EpollOne(s, i, fails);
    assert IsSlot(i) && RegisteredAt(s, i);
    EpollOneCases(s, i, fails);
    RegisterRefs(s, i, t.os.kernel);
    RefsBase(s, t);
    if t != s {
      if t == Register(s, i, s.os.kernel[s.st[i].fd := Watch(s.st[i].events.Armed(), i)]) {
        RegisterAgrees(s, t, i);
      } else {
        UnregisterAgrees(s, t, i);
      }
    }
  }

  lemma SameButRefsTwice(s: Sys, t: Sys, u: Sys)
    requires SameButRefs(s, t) && SameButRefs(t, u)
    ensures SameButRefs(s, u)
  {
  }

  lemma {:induction false} BuildEpollAgrees(s: Sys, l: seq<int>, fails: set<int>)
    requires Base(s) && s.os.epfd >= 0 && PartOf(l, s) && AllSlots(l)
    ensures var (t, ok) := BuildEpoll(s, l, fails);
      && SameButRefs(s, t) && Base(t)
      && (ok ==> forall i :: i in l ==> Settled(t.st[i]))
      && (fails == {} ==> ok)
      && forall j :: IsSlot(j) && j !in l ==> t.st[j] == s.st[j]
    decreases |l|
  {
    if l != [] {
      DescendingHead(l, s.stamp);
      EpollOneAgrees(s, l[0], fails);
      var (t, ok) := EpollOne(s, l[0], fails);
      if ok {
        BuildEpollAgrees(t, l[1..], fails);
        var (u, all) := BuildEpoll(t, l[1..], fails);
        SameButRefsTwice(s, t, u);
        assert l[0] !in l[1..] && u.st[l[0]] == t.st[l[0]];
        forall i | i in l
          ensures all ==> Settled(u.st[i])
        {
          assert i == l[0] || i in l[1..];
        }
      }
    }
  }

  lemma {:induction false} PollListMembers(s: Sys, l: seq<int>, p: PollFd)
    requires |s.st| == POOL_SIZE && AllSlots(l)
    ensures p in PollList(s, l) <==>
              exists k :: 0 <= k < |l| && s.st[l[k]].events.Any() && p == PollFd(s.st[l[k]].fd, s.st[l[k]].events.Armed())
  {
    if l != [] {
      PollListMembers(s, l[1..], p);
      assert forall k :: 1 <= k < |l| ==> l[k] == l[1..][k - 1];
    }
  }

  /**
   * After the incremental update the interest list holds exactly the descriptors and masks that a
   * poll array built from scratch would, and every entry points at the live stream it is for.
   */
  lemma EpollEqualsPoll(s: Sys)
    requires Base(s) && s.os.epfd >= 0 && AllSlots(s.live)
    requires forall i :: i in s.live ==> Settled(s.st[i])
    ensures forall p :: p in PollList(s, s.live) <==> p.fd in s.os.kernel && s.os.kernel[p.fd].mask == p.mask
    ensures forall fd :: fd in s.os.kernel ==> s.os.kernel[fd].ptr in s.live && s.st[s.os.kernel[fd].ptr].fd == fd
  {
    forall fd | fd in s.os.kernel
      ensures s.os.kernel[fd].ptr in s.live && s.st[s.os.kernel[fd].ptr].fd == fd
    {
      var i := KernelEntry(s, fd);
    }
    forall p: PollFd
      ensures p in PollList(s, s.live) <==> p.fd in s.os.kernel && s.os.kernel[p.fd].mask == p.mask
    {
      PollListMembers(s, s.live, p);
      EntryMatches(s, p);
    }
  }

  lemma KernelEntry(s: Sys, fd: int) returns (i: int)
    requires Base(s) && s.os.epfd >= 0 && fd in s.os.kernel
    ensures i in s.live && s.st[i].fd == fd && s.os.kernel[fd] == Watch(s.st[i].levents.Armed(), i) && s.st[i].pollref != Unwatched
  {
    assert fd in LiveFds(s);
    i :| i in s.live && s.st[i].fd == fd;
    assert RegisteredAt(s, i);
  }

  lemma EntryMatches(s: Sys, p: PollFd)
    requires Base(s) && s.os.epfd >= 0 && AllSlots(s.live)
    requires forall i :: i in s.live ==> Settled(s.st[i])
    ensures p.fd in s.os.kernel && s.os.kernel[p.fd].mask == p.mask <==>
              exists k :: 0 <= k < |s.live| && s.st[s.live[k]].events.Any() && p == PollFd(s.st[s.live[k]].fd, s.st[s.live[k]].events.Armed())
  {
    if p.fd in s.os.kernel && s.os.kernel[p.fd].mask == p.mask {
      var i := KernelEntry(s, p.fd);
      var k :| 0 <= k < |s.live| && s.live[k] == i;
      assert Settled(s.st[i]);
      assert s.st[s.live[k]].events.Any() && p == PollFd(s.st[s.live[k]].fd, s.st[s.live[k]].events.Armed());
    }
    if k :| 0 <= k < |s.live| && s.st[s.live[k]].events.Any() && p == PollFd(s.st[s.live[k]].fd, s.st[s.live[k]].events.Armed()) {
      assert s.live[k] in s.live;
      assert Settled(s.st[s.live[k]]) && RegisteredAt(s, s.live[k]);
    }
  }

  // ---------------------------------------------------------------------------------------------
  // What the kernel reports
  // ---------------------------------------------------------------------------------------------

  /** Descriptors the outside world made ready, and how; the first entry for a descriptor counts. */
  datatype Ready = Ready(fd: int, events: Events)

  function Reported(ready: seq<Ready>, fd: int): Events {
    if ready == [] then NONE else if ready[0].fd == fd then ready[0].events else Reported(ready[1..], fd)
  }

  /** What poll writes back for a stream: nothing unless it was listed, and no more than was asked. */
  function Revents(x: Stream, ready: seq<Ready>): Events {
    if x.events.Any() then Clip(Reported(ready, x.fd), x.events.Armed()) else NONE
  }

  function Deliver(s: Sys, ready: seq<Ready>): Sys
    requires |s.st| == POOL_SIZE
  {
    s.(st := seq(POOL_SIZE, i requires 0 <= i < POOL_SIZE =>
               if i in s.live then s.st[i].(revents := Revents(s.st[i], ready)) else s.st[i]))
  }

  datatype EpollEvent = EpollEvent(events: Events, ptr: int)

  /** epoll_wait: each registered descriptor that is ready is delivered once, with the registered pointer. */
  function Fired(kernel: map<int, Watch>, ready: seq<Ready>, seen: set<int>): seq<EpollEvent>
    decreases |ready|
  {
    if ready == [] then []
    else
      var r := ready[0];
      var rest := Fired(kernel, ready[1..], seen + {r.fd});
      if r.fd in kernel && r.fd !in seen && Clip(r.events, kernel[r.fd].mask).Any()
      then [EpollEvent(Clip(r.events, kernel[r.fd].mask), kernel[r.fd].ptr)] + rest
      else rest
  }

  /** The events a list of deliveries leaves in the stream `i`. */
  function EventsFor(fired: seq<EpollEvent>, i: int): Events {
    if fired == [] then NONE
    else if EventsFor(fired[1..], i).Any() then EventsFor(fired[1..], i)
    else if fired[0].ptr == i then fired[0].events
    else NONE
  }

  lemma {:induction false} FiredFor(s: Sys, i: int, ready: seq<Ready>, seen: set<int>)
    requires Base(s) && s.os.epfd >= 0 && i in s.live && Settled(s.st[i])
    ensures EventsFor(Fired(s.os.kernel, ready, seen), i) == if s.st[i].fd in seen then NONE else Revents(s.st[i], ready)
    decreases |ready|
  {
    if ready != [] {
      var r := ready[0];
      FiredFor(s, i, ready[1..], seen + {r.fd});
      FiredHead(s, i, r);
    }
  }

  lemma FiredHead(s: Sys, i: int, r: Ready)
    requires Base(s) && s.os.epfd >= 0 && i in s.live && Settled(s.st[i])
    ensures r.fd in s.os.kernel && s.os.kernel[r.fd].ptr == i ==> r.fd == s.st[i].fd
    ensures s.st[i].events.Any() ==> s.st[i].fd in s.os.kernel && s.os.kernel[s.st[i].fd] == Watch(s.st[i].events.Armed(), i)
    ensures !s.st[i].events.Any() ==> s.st[i].fd !in s.os.kernel
  {
    assert RegisteredAt(s, i);
    if r.fd in s.os.kernel {
      var j := KernelEntry(s, r.fd);
    }
  }

  /** Both ways of waiting leave a stream with the same events. */
  lemma EpollDeliversLikePoll(s: Sys, i: int, ready: seq<Ready>)
    requires Base(s) && s.os.epfd >= 0 && i in s.live && Settled(s.st[i])
    ensures EventsFor(Fired(s.os.kernel, ready, {}), i) == Revents(s.st[i], ready)
  {
    FiredFor(s, i, ready, {});
  }

  lemma {:induction false} EventsForLast(fired: seq<EpollEvent>, e: EpollEvent, i: int)
    requires e.events.Any()
    ensures EventsFor(fired + [e], i) == if e.ptr == i then e.events else EventsFor(fired, i)
  {
    if fired == [] {
      assert [] + [e] == [e];
    } else {
      EventsForLast(fired[1..], e, i);
      assert (fired + [e])[1..] == fired[1..] + [e];
    }
  }

  lemma {:induction false} FiredAny(kernel: map<int, Watch>, ready: seq<Ready>, seen: set<int>, k: nat)
    requires k < |Fired(kernel, ready, seen)|
    ensures Fired(kernel, ready, seen)[k].events.Any()
    ensures exists fd :: fd in kernel && kernel[fd].ptr == Fired(kernel, ready, seen)[k].ptr
    decreases |ready|
  {
    var r := ready[0];
    var rest := Fired(kernel, ready[1..], seen + {r.fd});
    if Fired(kernel, ready, seen) == rest {
      FiredAny(kernel, ready[1..], seen + {r.fd}, k);
    } else if k > 0 {
      FiredAny(kernel, ready[1..], seen + {r.fd}, k - 1);
    }
  }
}
