/**
 * Lives in which connections only come in: nothing is closed, nobody is evicted, and slot and
 * descriptor of a stream are the number of streams created before it.  Cycles in which one stream has
 * events are followed exactly, so that runs from start-up can be put together to a given pool.
 */
module Crowds {
  import opened Bytes
  import opened PollEvents
  import opened LiveLists
  import opened Socks
  import opened Streams
  import opened Handlers
  import opened BaseInvariant
  import opened Steps
  import opened Walks
  import opened Watching
  import opened Runs

  // ---------------------------------------------------------------------------------------------
  // Runs one after the other
  // ---------------------------------------------------------------------------------------------

  /** The run leads from `s` to `t`. */
  ghost predicate Reaches(s: Sys, cs: seq<CycleEnv>, t: Sys) {
    Base(s) && Run(s, cs).ok && Run(s, cs).s == t
  }

  /** The first run ends in `t` as the second one does, and has all its cycles. */
  ghost predicate EndsWith(run: RunResult, more: RunResult) {
    run.s == more.s && run.ok == more.ok && forall r :: r in more.cycles ==> r in run.cycles
  }

  /** A run goes on where another one ended. */
  lemma {:induction false} RunOn(s: Sys, a: seq<CycleEnv>, b: seq<CycleEnv>)
    requires Base(s) && Run(s, a).ok
    ensures Base(Run(s, a).s) && EndsWith(Run(s, a + b), Run(Run(s, a).s, b))
    decreases |a|
  {
    if a == [] {
      assert a + b == b;
    } else {
      FirstCycle(s, a);
      RunOn(Cycle(s, a[0]).s, a[1..], b);
      FirstEndsWith(s, a, b, Run(Run(s, a).s, b));
    }
  }

  lemma FirstEndsWith(s: Sys, a: seq<CycleEnv>, b: seq<CycleEnv>, more: RunResult)
    requires Base(s) && a != [] && Cycle(s, a[0]).ok && Base(Cycle(s, a[0]).s)
    requires EndsWith(Run(Cycle(s, a[0]).s, a[1..] + b), more)
    ensures EndsWith(Run(s, a + b), more)
  {
    var ab := a + b;
    assert ab[1..] == a[1..] + b && ab[0] == a[0];
    FirstCycle(s, ab);
    OneMoreCycle(Run(s, ab), Cycle(s, a[0]), Run(Cycle(s, a[0]).s, ab[1..]), more);
  }

  lemma OneMoreCycle(run: RunResult, r: CycleResult, rest: RunResult, more: RunResult)
    requires run.s == rest.s && run.ok == rest.ok && (forall q :: q in run.cycles <==> q == r || q in rest.cycles)
    requires EndsWith(rest, more)
    ensures EndsWith(run, more)
  {
  }

  lemma ReachesTwice(s: Sys, a: seq<CycleEnv>, t: Sys, b: seq<CycleEnv>, u: Sys)
    requires Reaches(s, a, t) && Reaches(t, b, u)
    ensures Reaches(s, a + b, u)
  {
    RunOn(s, a, b);
  }

  lemma ReachesOne(s: Sys, c: CycleEnv)
    requires Base(s) && Cycle(s, c).ok
    ensures Reaches(s, [c], Cycle(s, c).s)
  {
    FirstCycle(s, [c]);
  }

  // ---------------------------------------------------------------------------------------------
  // One stream with events
  // ---------------------------------------------------------------------------------------------

  /** The walk passes streams without events. */
  lemma {:induction false} IdleWalk(s: Sys, cur: int)
    requires Base(s) && (cur == NULL || cur in s.live)
    requires forall x :: x in From(s.live, cur) ==> IsSlot(x) && !s.st[x].revents.Any()
    ensures Walk(s, cur, []).s == s && Walk(s, cur, []).ok
    decreases |From(s.live, cur)|
  {
    if cur != NULL {
      assert cur in From(s.live, cur);
      FromNext(s.live, cur, s.stamp);
      IdleTurn(s, cur, Next([]));
      WalkTurn(s, cur, []);
      IdleWalk(s, NextOf(s.live, cur));
    }
  }

  lemma IdleTurn(s: Sys, i: int, e: Env)
    requires Sound(s) && i in s.live && !s.st[i].revents.Any() && e.arrivals == []
    ensures Visit(s, i, e) == Outcome(s, true, NULL)
  {
  }

  /** They ended alike. */
  predicate SameEnd(w: WalkResult, v: WalkResult) {
    w.s == v.s && w.ok == v.ok && w.hit == v.hit && w.stale == v.stale
  }

  /** Nobody newer than `i` has events. */
  ghost predicate QuietBefore(s: Sys, i: int)
    requires Shape(s) && IsSlot(i)
  {
    forall x :: x in s.live && s.stamp[x] > s.stamp[i] ==> !s.st[x].revents.Any()
  }

  lemma {:induction false} IdleUntil(s: Sys, cur: int, i: int, rest: seq<Env>) returns (visits: seq<Env>)
    requires Base(s) && cur in s.live && i in From(s.live, cur) && IsSlot(i) && QuietBefore(s, i)
    ensures i in s.live && SameEnd(Walk(s, cur, visits), Walk(s, i, rest))
    decreases |From(s.live, cur)|
  {
    if cur == i {
      visits := rest;
    } else {
      var next := NextOf(s.live, cur);
      FromNext(s.live, cur, s.stamp);
      FromDescends(s.live, cur, s.stamp);
      DescendingHead(From(s.live, cur), s.stamp);
      NullNotLive(s);
      var e := Next([]);
      var more := IdleUntil(s, next, i, rest);
      visits := [e] + more;
      assert visits[1..] == more;
      IdleTurn(s, cur, e);
      WalkTurn(s, cur, visits);
    }
  }

  lemma QuietAfter(s: Sys, i: int, e: Env, x: int)
    requires Base(s) && i in s.live && (forall k :: k in s.live && k != i ==> !s.st[k].revents.Any())
    requires Visit(s, i, e).victim == NULL && x in From(Visit(s, i, e).s.live, NextOf(s.live, i))
    ensures |Visit(s, i, e).s.st| == POOL_SIZE && IsSlot(x) && !Visit(s, i, e).s.st[x].revents.Any()
  {
    var r := Visit(s, i, e);
    VisitBase(s, i, e);
    VisitStep(s, i, e);
    SameStreamStep(s, i, r, x);
    RestOfWalk(s, i, r);
  }

  /** When one stream has events and its turn evicts nobody, its turn is all the walk does. */
  lemma LoneTurn(s: Sys, i: int, e: Env) returns (visits: seq<Env>)
    requires Base(s) && i in s.live && (forall k :: k in s.live && k != i ==> !s.st[k].revents.Any())
    requires Visit(s, i, e).ok && Visit(s, i, e).victim == NULL
    ensures Walk(s, Head(s), visits).s == Visit(s, i, e).s && Walk(s, Head(s), visits).ok
  {
    var r := Visit(s, i, e);
    var next := NextOf(s.live, i);
    WalkTurn(s, i, [e]);
    forall x | x in From(r.s.live, next)
      ensures IsSlot(x) && |r.s.st| == POOL_SIZE && !r.s.st[x].revents.Any()
    {
      QuietAfter(s, i, e, x);
    }
    IdleWalk(r.s, next);
    FromHead(s);
    visits := IdleUntil(s, Head(s), i, [e]);
  }

  // ---------------------------------------------------------------------------------------------
  // The pool
  // ---------------------------------------------------------------------------------------------

  /** The same stream, however it is watched and whatever was reported for it last. */
  predicate Like(x: Stream, y: Stream) {
    x == y.(pollref := x.pollref, levents := x.levents, revents := x.revents)
  }

  predicate FormAt(f: seq<Stream>, i: int)
    requires 0 <= i < |f|
  {
    var x := f[i];
    && x.fd == i && !x.abandoned && x.role != Invalid && (x.role == Listener <==> i == 0)
    && (x.neighbour == NULL || (0 <= x.neighbour < |f| && x.neighbour != i))
  }

  /** A listener and clients and endpoints, as they came. */
  ghost predicate Forms(f: seq<Stream>) {
    0 < |f| <= POOL_SIZE && forall i {:trigger FormAt(f, i)} :: 0 <= i < |f| ==> FormAt(f, i)
  }

  predicate SeatedAt(s: Sys, f: seq<Stream>, i: int)
    requires |s.st| == |s.stamp| == POOL_SIZE && 0 <= i < |f| <= POOL_SIZE
  {
    Like(s.st[i], f[i]) && s.stamp[i] == i
  }

  /** Nothing was ever closed, and poll is in use. */
  ghost predicate Unclosed(os: Os, n: nat) {
    && os.epfd == -1 && os.kernel == map[]
    && (forall fd :: fd in os.fds.open <==> 0 <= fd < n) && os.fds.acquired == multiset(os.fds.open) && os.fds.released == multiset{}
  }

  /** The live streams are those of `f`, in the first slots. */
  ghost predicate Crowd(s: Sys, f: seq<Stream>) {
    && |s.st| == |s.stamp| == POOL_SIZE && |s.live| == |f| == s.clock && s.evictions == 0 && Forms(f)
    && (forall i {:trigger SeatedAt(s, f, i)} :: 0 <= i < |f| ==> SeatedAt(s, f, i))
    && (forall p :: 0 <= p < |f| ==> s.live[p] == |f| - 1 - p)
    && (forall i :: |f| <= i < POOL_SIZE ==> s.st[i].neighbour == NULL)
    && Unclosed(s.os, |f|)
  }

  lemma CrowdLive(s: Sys, f: seq<Stream>, i: int)
    requires Crowd(s, f)
    ensures i in s.live <==> 0 <= i < |f|
  {
    if 0 <= i < |f| {
      assert s.live[|f| - 1 - i] == i;
    }
  }

  lemma CrowdDescends(s: Sys, f: seq<Stream>)
    requires Crowd(s, f)
    ensures Descending(s.live, s.stamp)
  {
    forall p | 0 <= p < |f|
      ensures s.live[p] == |f| - 1 - p && s.stamp[s.live[p]] == |f| - 1 - p
    {
      assert SeatedAt(s, f, |f| - 1 - p);
    }
  }

  lemma CrowdShape(s: Sys, f: seq<Stream>)
    requires Crowd(s, f)
    ensures Sound(s) && forall i :: i in s.live <==> 0 <= i < |f|
  {
    CrowdDescends(s, f);
    forall i
      ensures i in s.live <==> 0 <= i < |f|
    {
      CrowdLive(s, f, i);
    }
    forall i | 0 <= i < POOL_SIZE
      ensures s.st[i].neighbour == NULL || (IsSlot(s.st[i].neighbour) && s.st[i].neighbour != i)
      ensures i < |f| ==> s.stamp[i] == i && s.st[i].role == f[i].role && FormAt(f, i)
    {
      if i < |f| {
        assert SeatedAt(s, f, i) && FormAt(f, i);
      }
    }
  }

  lemma CrowdFds(s: Sys, f: seq<Stream>)
    requires Crowd(s, f) && Shape(s) && forall i :: i in s.live <==> 0 <= i < |f|
    ensures LiveFds(s) == s.os.fds.open && forall i :: i in s.live ==> s.st[i].fd == i
  {
    forall i | 0 <= i < |f|
      ensures s.st[i].fd == i
    {
      assert SeatedAt(s, f, i) && FormAt(f, i);
    }
    forall fd
      ensures fd in LiveFds(s) <==> fd in s.os.fds.open
    {
      if 0 <= fd < |f| {
        assert fd in s.live && s.st[fd].fd == fd;
      }
    }
  }

  lemma CrowdConserved(s: Sys, n: nat)
    requires Shape(s) && LiveFds(s) == s.os.fds.open && (forall i :: i in s.live ==> s.st[i].fd == i) && Unclosed(s.os, n)
    ensures Conserved(s, {}) && KernelAgrees(s)
  {
    forall i | i in s.live
      ensures s.st[i].fd >= 0
    {
      assert IsSlot(i);
    }
  }

  lemma CrowdBase(s: Sys, f: seq<Stream>)
    requires Crowd(s, f)
    ensures Base(s) && forall i :: i in s.live <==> 0 <= i < |f|
  {
    CrowdShape(s, f);
    CrowdFds(s, f);
    CrowdConserved(s, |f|);
  }

  lemma CrowdFree(s: Sys, f: seq<Stream>)
    requires Crowd(s, f)
    ensures FreeSlot(s) == if |f| < POOL_SIZE then |f| else NULL
  {
    CrowdShape(s, f);
    var k := FreeSlot(s);
    if |f| < POOL_SIZE {
      assert |f| !in s.live;
    } else {
      assert k != NULL ==> 0 <= k < |f|;
    }
  }

  lemma CrowdNext(s: Sys, f: seq<Stream>, i: int)
    requires Crowd(s, f) && 0 < i < |f|
    ensures NextOf(s.live, i) == i - 1
  {
    CrowdDescends(s, f);
    NextAt(s.live, |f| - 1 - i, s.stamp);
  }

  /** The lowest candidate is taken. */
  lemma CrowdLast(s: Sys, f: seq<Stream>, candidates: set<int>, v: int)
    requires Crowd(s, f) && 0 <= v < |f| && v in candidates && forall x :: x in candidates ==> v <= x < |f|
    ensures LastOf(s.live, candidates) == v
  {
    CrowdShape(s, f);
    LastIsOldest(s.live, candidates, s.stamp);
    assert v in s.live && v != NULL;
    var r := LastOf(s.live, candidates);
    assert SeatedAt(s, f, r) && SeatedAt(s, f, v);
  }

  /** One stream changes. */
  lemma CrowdChanged(s: Sys, f: seq<Stream>, i: int, x: Stream, y: Stream)
    requires Crowd(s, f) && 0 <= i < |f| && Like(x, y) && FormAt(f[i := y], i)
    ensures Crowd(s.(st := s.st[i := x]), f[i := y])
  {
    var t, g := s.(st := s.st[i := x]), f[i := y];
    forall k | 0 <= k < |f|
      ensures SeatedAt(t, g, k) && FormAt(g, k)
    {
      assert SeatedAt(s, f, k) && FormAt(f, k);
    }
  }

  /** The state with one more stream at the head of the list. */
  function With(s: Sys, x: Stream): Sys
    requires |s.st| == |s.stamp| == POOL_SIZE && s.clock < POOL_SIZE
  {
    var k := s.clock;
    s.(live := [k] + s.live, st := s.st[k := x], stamp := s.stamp[k := k], clock := k + 1,
       os := s.os.(fds := s.os.fds.Open(k)))
  }

  /** One stream comes. */
  lemma CrowdGrown(s: Sys, f: seq<Stream>, x: Stream, y: Stream)
    requires Crowd(s, f) && |f| < POOL_SIZE && Like(x, y) && FormAt(f + [y], |f|)
    ensures Crowd(With(s, x), f + [y])
  {
    var t, g := With(s, x), f + [y];
    forall k | 0 <= k < |g|
      ensures SeatedAt(t, g, k) && FormAt(g, k)
    {
      if k < |f| {
        assert SeatedAt(s, f, k) && FormAt(f, k);
      }
    }
    assert |f| !in s.os.fds.open;
  }

  /** A new stream in a free slot. */
  lemma CrowdSeats(s: Sys, f: seq<Stream>, excl: int, role: Role, level: Level, events: Events)
    requires Crowd(s, f) && |f| < POOL_SIZE
    ensures Sound(OpenFd(s, |f|)) && Fresh(s, |f|)
    ensures Seat(OpenFd(s, |f|), |f|, excl, role, level, events)
         == Seating(With(s, Blank(|f|).(role := role, level := level, events := events)), |f|, NULL)
  {
    CrowdShape(s, f);
    CrowdFree(s, f);
    var x := Blank(|f|).(role := role, level := level, events := events);
    assert s.st[|f| := Blank(|f|)][|f| := x] == s.st[|f| := x];
  }

  // ---------------------------------------------------------------------------------------------
  // Waiting
  // ---------------------------------------------------------------------------------------------

  /** A stream after `bytes` have reached its socket. */
  function Fed(x: Stream, bytes: seq<byte>): Stream {
    x.(sock := x.sock.(unread := x.sock.unread + bytes, arrived := x.sock.arrived + bytes))
  }

  /** What a wait in which bytes reach one socket, or none, does to the stream in slot `i`. */
  predicate WaitedAt(s: Sys, w: Wait, t: Sys, i: int)
    requires |s.st| == |t.st| == POOL_SIZE && IsSlot(i) && |w.arrivals| == 1
  {
    && Like(t.st[i], if i == w.arrivals[0].slot then Fed(s.st[i], w.arrivals[0].bytes) else s.st[i])
    && t.st[i].revents == Revents(s.st[i], w.ready)
  }

  lemma OneReceipt(s: Sys, a: Arrival, i: int)
    requires Shape(s) && IsSlot(i) && a.slot in s.live
    ensures var t := Arrive(s, [a]);
      |t.st| == POOL_SIZE && t.st[i] == if i == a.slot then Fed(s.st[i], a.bytes) else s.st[i]
  {
    var one := [a];
    assert one[1..] == [] && one[0] == a;
    assert Arrive(s, one) == Receipt(s, a);
  }

  /** The state after such a wait with poll. */
  function Waited(s: Sys, w: Wait): Sys
    requires Shape(s)
  {
    LiveAreSlots(s);
    BuildPollRefers(s);
    ArriveSound(BuildPoll(s), w.arrivals);
    Deliver(Arrive(BuildPoll(s), w.arrivals), w.ready)
  }

  lemma WaitedOne(s: Sys, w: Wait, i: int)
    requires Shape(s) && IsSlot(i) && i in s.live && |w.arrivals| == 1 && w.arrivals[0].slot in s.live
    ensures |Waited(s, w).st| == POOL_SIZE && WaitedAt(s, w, Waited(s, w), i)
  {
    LiveAreSlots(s);
    BuildPollRefers(s);
    DeliveredOne(BuildPoll(s), w, i);
  }

  lemma DeliveredOne(b: Sys, w: Wait, i: int)
    requires Shape(b) && IsSlot(i) && i in b.live && |w.arrivals| == 1 && w.arrivals[0].slot in b.live
    ensures Shape(Arrive(b, w.arrivals)) && |Deliver(Arrive(b, w.arrivals), w.ready).st| == POOL_SIZE
    ensures WaitedAt(b, w, Deliver(Arrive(b, w.arrivals), w.ready), i)
  {
    ArriveSound(b, w.arrivals);
    DeliverSoft(Arrive(b, w.arrivals), w.ready);
    assert w.arrivals == [w.arrivals[0]];
    OneReceipt(b, w.arrivals[0], i);
  }

  lemma WaitedFrame(s: Sys, w: Wait)
    requires Shape(s)
    ensures Waited(s, w) == s.(st := Waited(s, w).st) && |Waited(s, w).st| == POOL_SIZE
    ensures forall i :: IsSlot(i) ==> Waited(s, w).st[i].neighbour == s.st[i].neighbour
  {
    LiveAreSlots(s);
    BuildPollRefers(s);
    ArriveSound(BuildPoll(s), w.arrivals);
  }

  lemma BusyAt(t: Sys, k: nat)
    requires |t.st| == POOL_SIZE && AllSlots(t.live) && k < |t.live| && t.st[t.live[k]].revents.Any()
    ensures Busy(t)
  {
  }

  lemma WatchIsWaited(s: Sys, w: Wait, busy: int)
    requires Base(s) && s.os.epfd == -1 && !w.error
    requires busy in s.live && |Waited(s, w).st| == POOL_SIZE && IsSlot(busy) && Waited(s, w).st[busy].revents.Any()
    ensures WatchStreams(s, w) == (Waited(s, w), 1)
  {
    LiveAreSlots(s);
    WaitedFrame(s, w);
    var k :| 0 <= k < |s.live| && s.live[k] == busy;
    BusyAt(Waited(s, w), k);
  }

  /** The pool after a wait. */
  ghost predicate CrowdWaited(s: Sys, f: seq<Stream>, w: Wait, t: Sys) {
    && |w.arrivals| == 1 && 0 <= w.arrivals[0].slot < |f| && |t.st| == POOL_SIZE && |f| <= POOL_SIZE
    && Crowd(t, f[w.arrivals[0].slot := Fed(f[w.arrivals[0].slot], w.arrivals[0].bytes)])
    && forall k :: 0 <= k < |f| ==> t.st[k].revents == Revents(f[k], w.ready)
  }

  lemma SeatedWaits(s: Sys, f: seq<Stream>, w: Wait, t: Sys, k: int)
    requires |s.st| == |s.stamp| == |t.st| == POOL_SIZE && t.stamp == s.stamp && 0 <= k < |f| <= POOL_SIZE
    requires |w.arrivals| == 1 && 0 <= w.arrivals[0].slot < |f|
    requires SeatedAt(s, f, k) && WaitedAt(s, w, t, k) && FormAt(f, k)
    ensures var g := f[w.arrivals[0].slot := Fed(f[w.arrivals[0].slot], w.arrivals[0].bytes)];
      SeatedAt(t, g, k) && FormAt(g, k) && t.st[k].revents == Revents(f[k], w.ready)
  {
  }

  lemma WaitedCrowd(s: Sys, f: seq<Stream>, w: Wait)
    requires Crowd(s, f) && Shape(s) && |w.arrivals| == 1 && 0 <= w.arrivals[0].slot < |f|
    ensures CrowdWaited(s, f, w, Waited(s, w))
  {
    var t := Waited(s, w);
    WaitedFrame(s, w);
    CrowdLive(s, f, w.arrivals[0].slot);
    forall k | 0 <= k < |f|
      ensures var g := f[w.arrivals[0].slot := Fed(f[w.arrivals[0].slot], w.arrivals[0].bytes)];
        SeatedAt(t, g, k) && FormAt(g, k) && t.st[k].revents == Revents(f[k], w.ready)
    {
      CrowdLive(s, f, k);
      WaitedOne(s, w, k);
      assert SeatedAt(s, f, k) && FormAt(f, k);
      SeatedWaits(s, f, w, t, k);
    }
  }

  lemma {:induction false} PurgeNobody(s: Sys, l: seq<int>)
    requires Shape(s) && PartOf(l, s)
    ensures Purge(s, l, {}) == s
    decreases |l|
  {
    if l != [] {
      DescendingHead(l, s.stamp);
      PurgeNobody(s, l[1..]);
    }
  }

  /** Nobody is to be removed. */
  lemma CrowdClean(s: Sys, f: seq<Stream>)
    requires Crowd(s, f) && Shape(s)
    ensures Cleanup(s) == s
  {
    forall i | i in s.live
      ensures !s.st[i].abandoned
    {
      CrowdLive(s, f, i);
      assert SeatedAt(s, f, i) && FormAt(f, i);
    }
    assert AbandonedIn(s) == {};
    LiveAreSlots(s);
    PurgeNobody(s, s.live);
  }

  /** A cycle in which bytes reach one socket and some stream is reported ready. */
  lemma CrowdCycle(s: Sys, f: seq<Stream>, w: Wait, busy: int) returns (t: Sys)
    requires Crowd(s, f) && !w.error && |w.arrivals| == 1 && 0 <= w.arrivals[0].slot < |f|
    requires 0 <= busy < |f| && Revents(f[busy], w.ready).Any()
    ensures Base(s) && Base(t) && CrowdWaited(s, f, w, t)
    ensures forall visits :: var r := Walk(t, Head(t), visits); Cycle(s, CycleEnv(w, visits)) == CycleResult(r.s, r.ok, t, r)
  {
    CrowdBase(s, f);
    t := Waited(s, w);
    WaitedCrowd(s, f, w);
    CrowdLive(s, f, busy);
    WatchIsWaited(s, w, busy);
    CrowdClean(s, f);
    WatchBase(s, w);
  }

  lemma OneReady(f: seq<Stream>, i: int, events: Events, k: int)
    requires Forms(f) && 0 <= i < |f| && 0 <= k < |f|
    ensures Revents(f[k], [Ready(i, events)]) == if k == i && f[i].events.Any() then Clip(events, f[i].events.Armed()) else NONE
  {
    assert FormAt(f, k);
    var ready := [Ready(i, events)];
    assert ready[1..] == [] && Reported(ready[1..], k) == NONE;
    assert Reported(ready, k) == if k == i then events else NONE;
  }

  /** A wait after which one stream has events. */
  ghost predicate LoneAt(s: Sys, w: Wait, t: Sys, i: int) {
    && Base(s) && Base(t) && i in t.live && t.st[i].revents.Any()
    && (forall k :: k in t.live && k != i ==> !t.st[k].revents.Any())
    && forall visits :: var r := Walk(t, Head(t), visits); Cycle(s, CycleEnv(w, visits)) == CycleResult(r.s, r.ok, t, r)
  }

  lemma LoneWait(s: Sys, f: seq<Stream>, i: int, bytes: seq<byte>, events: Events) returns (w: Wait, t: Sys)
    requires Crowd(s, f) && 0 <= i < |f| && f[i].events.Any() && Clip(events, f[i].events.Armed()).Any()
    ensures LoneAt(s, w, t, i) && Crowd(t, f[i := Fed(f[i], bytes)]) && t.st[i].revents == Clip(events, f[i].events.Armed())
  {
    w := Wait.Wait({}, false, [Arrival(i, bytes)], [Ready(i, events)]);
    OneReady(f, i, events, i);
    t := CrowdCycle(s, f, w, i);
    CrowdLive(t, f[i := Fed(f[i], bytes)], i);
    forall k | k in t.live && k != i
      ensures !t.st[k].revents.Any()
    {
      CrowdLive(t, f[i := Fed(f[i], bytes)], k);
      OneReady(f, i, events, k);
    }
  }

  /** Then its turn is the whole cycle. */
  lemma LoneEnds(s: Sys, w: Wait, t: Sys, i: int, e: Env, u: Sys) returns (cs: seq<CycleEnv>)
    requires LoneAt(s, w, t, i) && Visit(t, i, e) == Outcome(u, true, NULL)
    ensures Reaches(s, cs, u)
  {
    var visits := LoneTurn(t, i, e);
    var c := CycleEnv(w, visits);
    ReachesOne(s, c);
    cs := [c];
  }

  // ---------------------------------------------------------------------------------------------
  // What connections go through
  // ---------------------------------------------------------------------------------------------

  const GREETING: seq<byte> := [5, 1, 0]

  const REQUEST: seq<byte> := [5, 1, 0, 1, 10, 0, 0, 1, 0, 80]

  const DOOR := Blank(0).(role := Listener, events := IN)

  function IdleClient(fd: int): Stream {
    Blank(fd).(role := Client, level := Ver, events := IN)
  }

  /** A client whose greeting was read and whose reply is queued. */
  function AnsweredClient(fd: int): Stream {
    Blank(fd).(role := Client, level := Req, events := OUT, queue := NO_AUTH, sock := Sock([], [], GREETING, [], [], []))
  }

  /** A client that was sent the reply to its greeting. */
  function GreetedClient(fd: int): Stream {
    Blank(fd).(role := Client, level := Req, events := IN, sock := Sock([], NO_AUTH, GREETING, [], [], NO_AUTH))
  }

  /** connect is under way on descriptor `fd`. */
  function DialOn(fd: int): Env {
    Env([], -1, true, true, Pending(fd), 0, 0)
  }

  /** A new client connects on descriptor `fd`. */
  function AcceptOn(fd: int): Env {
    Env([], fd, true, false, NoSocket, 0, 0)
  }

  /** Nothing happens, and send takes whatever it is given. */
  const FLOWING := Env([], -1, true, true, NoSocket, FORWARD_CHUNK, FORWARD_CHUNK)

  lemma FedNothing(f: seq<Stream>, i: int)
    requires 0 <= i < |f|
    ensures f[i := Fed(f[i], [])] == f
  {
    assert f[i].sock.unread + [] == f[i].sock.unread && f[i].sock.arrived + [] == f[i].sock.arrived;
    assert Fed(f[i], []) == f[i];
  }

  lemma AcceptingTurn(t: Sys, f: seq<Stream>)
    requires Crowd(t, f) && |f| < POOL_SIZE && f[0] == DOOR && t.st[0].revents == IN
    ensures Sound(t) && 0 in t.live
    ensures Visit(t, 0, AcceptOn(|f|)) == Outcome(With(t, IdleClient(|f|)), true, NULL)
  {
    CrowdShape(t, f);
    CrowdSeats(t, f, NULL, Client, Ver, IN);
    assert SeatedAt(t, f, 0);
    var e := AcceptOn(|f|);
    assert Visit(t, 0, e) == React(t, 0, e);
    assert React(t, 0, e) == HandleNewStream(t, 0, e);
  }

  /** A cycle in which a connection is accepted. */
  lemma Accepting(s: Sys, f: seq<Stream>) returns (cs: seq<CycleEnv>, u: Sys)
    requires Crowd(s, f) && |f| < POOL_SIZE && f[0] == DOOR
    ensures Reaches(s, cs, u) && Crowd(u, f + [IdleClient(|f|)])
  {
    var w, t := LoneWait(s, f, 0, [], IN);
    FedNothing(f, 0);
    AcceptingTurn(t, f);
    CrowdGrown(t, f, IdleClient(|f|), IdleClient(|f|));
    u := With(t, IdleClient(|f|));
    cs := LoneEnds(s, w, t, 0, AcceptOn(|f|), u);
  }

  /** As many connections are accepted as there is room for. */
  function Filled(f: seq<Stream>): seq<Stream>
    requires |f| <= POOL_SIZE
  {
    f + seq(POOL_SIZE - |f|, k requires 0 <= k => IdleClient(|f| + k))
  }

  lemma FilledLater(f: seq<Stream>)
    requires |f| < POOL_SIZE
    ensures Filled(f + [IdleClient(|f|)]) == Filled(f)
  {
  }

  lemma {:induction false} Filling(s: Sys, f: seq<Stream>) returns (cs: seq<CycleEnv>, t: Sys)
    requires Crowd(s, f) && f[0] == DOOR
    ensures Reaches(s, cs, t) && Crowd(t, Filled(f))
    decreases POOL_SIZE - |f|
  {
    if |f| == POOL_SIZE {
      CrowdBase(s, f);
      cs, t := [], s;
      assert Filled(f) == f;
    } else {
      var first, u := Accepting(s, f);
      var more;
      more, t := Filling(u, f + [IdleClient(|f|)]);
      ReachesTwice(s, first, u, more, t);
      cs := first + more;
      FilledLater(f);
    }
  }

  lemma GreetingTurn(t: Sys, i: int)
    requires Sound(t) && i in t.live && IsSlot(i) && Like(t.st[i], Fed(IdleClient(i), GREETING)) && t.st[i].revents == IN
    ensures var x := Answer(Read(t.st[i]), Req, NO_AUTH);
      Visit(t, i, FLOWING) == Outcome(Put(t, i, x), true, NULL) && Like(x, AnsweredClient(i))
  {
    var me := t.st[i];
    assert Chunk(me) == GREETING;
    assert Receive(Ver, [], GREETING) == Reply(Req, NO_AUTH) by {
      assert [] + GREETING == GREETING;
    }
    assert Visit(t, i, FLOWING) == HandleSocks(t, i, FLOWING);
  }

  lemma DrainingTurn(t: Sys, i: int, y: Stream)
    requires Sound(t) && i in t.live && IsSlot(i) && Like(t.st[i], y) && t.st[i].revents == OUT
    requires y.role == Client && y.level != Forwarding && !y.abandoned && 0 < |y.queue| <= CAPACITY
    ensures var x := Drained(t.st[i]);
      Visit(t, i, FLOWING) == Outcome(Put(t, i, x), true, NULL) && Like(x, Drained(y))
  {
    var me := t.st[i];
    assert me.queue[..|me.queue|] == me.queue && me.queue[|me.queue|..] == [];
    assert DrainQueue(me, FLOWING) == Some(Drained(me));
  }

  /** A client whose whole reply has been sent. */
  function Drained(x: Stream): Stream {
    x.(queue := [], sock := Uttered(x.sock, x.queue), events := if x.level == Pass then NONE else IN)
  }

  /** A cycle in which a client's reply is sent. */
  lemma Draining(s: Sys, f: seq<Stream>, i: int) returns (cs: seq<CycleEnv>, u: Sys)
    requires Crowd(s, f) && 0 <= i < |f| && f[i].role == Client && f[i].level != Forwarding
    requires f[i].events == OUT && 0 < |f[i].queue| <= CAPACITY
    ensures Reaches(s, cs, u) && Crowd(u, f[i := Drained(f[i])])
  {
    var w, t := LoneWait(s, f, i, [], OUT);
    FedNothing(f, i);
    assert SeatedAt(t, f, i) && FormAt(f, i);
    DrainingTurn(t, i, f[i]);
    CrowdChanged(t, f, i, Drained(t.st[i]), Drained(f[i]));
    u := Put(t, i, Drained(t.st[i]));
    cs := LoneEnds(s, w, t, i, FLOWING, u);
  }

  /** A cycle in which a greeting is read. */
  lemma Answering(s: Sys, f: seq<Stream>, i: int) returns (cs: seq<CycleEnv>, u: Sys)
    requires Crowd(s, f) && 0 <= i < |f| && f[i] == IdleClient(i)
    ensures Reaches(s, cs, u) && Crowd(u, f[i := AnsweredClient(i)])
  {
    var w, t := LoneWait(s, f, i, GREETING, IN);
    var g := f[i := Fed(f[i], GREETING)];
    assert SeatedAt(t, g, i) && FormAt(f, i);
    GreetingTurn(t, i);
    var x := Answer(Read(t.st[i]), Req, NO_AUTH);
    CrowdChanged(t, g, i, x, AnsweredClient(i));
    assert g[i := AnsweredClient(i)] == f[i := AnsweredClient(i)];
    u := Put(t, i, x);
    cs := LoneEnds(s, w, t, i, FLOWING, u);
  }

  /** Two cycles in which a client is greeted. */
  lemma Greeting(s: Sys, f: seq<Stream>, i: int) returns (cs: seq<CycleEnv>, t: Sys)
    requires Crowd(s, f) && 0 <= i < |f| && f[i] == IdleClient(i)
    ensures Reaches(s, cs, t) && Crowd(t, f[i := GreetedClient(i)])
  {
    var first, u := Answering(s, f, i);
    var second;
    second, t := Draining(u, f[i := AnsweredClient(i)], i);
    ReachesTwice(s, first, u, second, t);
    cs := first + second;
    GreetedForms(f, i);
  }

  lemma GreetedForms(f: seq<Stream>, i: int)
    requires 0 <= i < |f|
    ensures f[i := AnsweredClient(i)][i := Drained(AnsweredClient(i))] == f[i := GreetedClient(i)]
  {
    assert [] + NO_AUTH == NO_AUTH;
  }

  /** The state start-up leaves when poll is used and the listener gets descriptor 0. */
  lemma Opening()
    ensures Boot(-1, Pending(0)).1 && Crowd(Boot(-1, Pending(0)).0, [DOOR])
  {
    var s := Boot(-1, Pending(0)).0;
    assert SeatedAt(s, [DOOR], 0) && FormAt([DOOR], 0);
    assert s.os.fds.open == {0};
    BootBase(-1, Pending(0));
  }

  lemma RequestParses()
    ensures Receive(Req, [], REQUEST) == Reaction.Dial(Ipv4([10, 0, 0, 1], 80))
  {
    var q := [] + REQUEST;
    assert q == REQUEST;
    assert q[4..8] == [10, 0, 0, 1];
    assert Word(q[8], q[9]) == 80;
  }

  /** A greeted client whose request has arrived. */
  lemma RequestRead(x: Stream)
    requires Like(x, Fed(GreetedClient(x.fd), REQUEST))
    ensures Chunk(x) == REQUEST && Receive(Req, x.queue, Chunk(x)) == Reaction.Dial(Ipv4([10, 0, 0, 1], 80))
  {
    RequestParses();
    assert x.sock.unread == REQUEST;
    assert REQUEST[..10] == REQUEST;
  }
}
