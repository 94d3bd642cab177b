/**
 * What an event cycle does (src/util.c:535-847, 1155-1202): what a wait reports and when it fails, what a
 * quiet cycle leaves of the list, and when a cycle ends the proxy.
 */
module Cycles {
  import opened PollEvents
  import opened LiveLists
  import opened Socks
  import opened Streams
  import opened Handlers
  import opened Relations
  import opened Walks
  import opened Watching
  import opened Runs

  // ---------------------------------------------------------------------------------------------
  // Waiting
  // ---------------------------------------------------------------------------------------------

  /** How the first entry for a descriptor says it is ready. */
  predicate SaysReady(ready: seq<Ready>, k: nat, fd: int) {
    k < |ready| && ready[k].fd == fd && forall j :: 0 <= j < k ==> ready[j].fd != fd
  }

  lemma {:induction false} ReportedIs(ready: seq<Ready>, k: nat, fd: int)
    requires SaysReady(ready, k, fd)
    ensures Reported(ready, fd) == ready[k].events
    decreases k
  {
    if k > 0 {
      assert forall j :: 0 <= j < k - 1 ==> ready[1..][j] == ready[j + 1];
      ReportedIs(ready[1..], k - 1, fd);
    }
  }

  lemma {:induction false} ReportedNot(ready: seq<Ready>, fd: int)
    requires forall k :: 0 <= k < |ready| ==> ready[k].fd != fd
    ensures Reported(ready, fd) == NONE
  {
    if ready != [] {
      ReportedNot(ready[1..], fd);
    }
  }

  /**
   * A wait hands a stream exactly this: nothing if it asked for nothing or its descriptor is not ready,
   * else readable and writable as far as it asked, and errors and hang-ups whether it asked or not.
   */
  lemma WaitReports(s: Sys, w: Wait, i: int)
    requires Base(s) && WatchStreams(s, w).1 >= 0 && i in s.live
    ensures var t := WatchStreams(s, w).0;
      |t.st| == POOL_SIZE && IsSlot(i) &&
      var x, y := s.st[i], t.st[i];
      && ((forall k :: 0 <= k < |w.ready| ==> w.ready[k].fd != x.fd) || x.events == Events(false, false, false, false) ==>
            y.revents == Events(false, false, false, false))
      && forall k: nat :: SaysReady(w.ready, k, x.fd) && (x.events.rd || x.events.wr) ==>
           var e := w.ready[k].events;
           y.revents == Events(e.rd && x.events.rd, e.wr && x.events.wr, e.err, e.hup)
  {
    WatchAt(s, w, i);
    assert IsSlot(i);
    var x := s.st[i];
    if forall k :: 0 <= k < |w.ready| ==> w.ready[k].fd != x.fd {
      ReportedNot(w.ready, x.fd);
    }
    forall k: nat | SaysReady(w.ready, k, x.fd)
      ensures Reported(w.ready, x.fd) == w.ready[k].events
    {
      ReportedIs(w.ready, k, x.fd);
    }
  }

  /** The step on one stream fails exactly when its registration must change and the kernel refuses. */
  lemma EpollOneFailsExactlyWhen(s: Sys, i: int, fails: set<int>)
    requires Base(s) && s.os.epfd >= 0 && i in s.live && IsSlot(i)
    ensures !EpollOne(s, i, fails).1 <==> !Settled(s.st[i]) && s.st[i].fd in fails
  {
    assert RegisteredAt(s, i);
  }

  lemma {:induction false} BuildEpollFailsExactlyWhen(s: Sys, l: seq<int>, fails: set<int>)
    requires Base(s) && s.os.epfd >= 0 && PartOf(l, s) && AllSlots(l)
    ensures !BuildEpoll(s, l, fails).1 <==> exists k :: 0 <= k < |l| && !Settled(s.st[l[k]]) && s.st[l[k]].fd in fails
    decreases |l|
  {
    if l != [] {
      DescendingHead(l, s.stamp);
      EpollOneAgrees(s, l[0], fails);
      EpollOneFailsExactlyWhen(s, l[0], fails);
      var (t, ok) := EpollOne(s, l[0], fails);
      if ok {
        var rest := l[1..];
        BuildEpollFailsExactlyWhen(t, rest, fails);
        forall k | 1 <= k < |l|
          ensures rest[k - 1] == l[k] && t.st[l[k]] == s.st[l[k]]
        {
          assert l[k] in rest;
        }
      }
    }
  }

  /** A registration that must change is refused. */
  predicate Refuses(s: Sys, fails: set<int>)
    requires |s.st| == POOL_SIZE && AllSlots(s.live)
  {
    s.os.epfd >= 0 && exists k :: 0 <= k < |s.live| && !Settled(s.st[s.live[k]]) && s.st[s.live[k]].fd in fails
  }

  /**
   * A wait fails exactly when poll or epoll_wait does, or, with epoll, a registration that must change
   * is refused; else it says whether any stream was handed events.
   */
  lemma WaitStatus(s: Sys, w: Wait)
    requires Base(s) && AllSlots(s.live)
    ensures var (t, status) := WatchStreams(s, w);
      && (status < 0 <==> w.error || Refuses(s, w.fails))
      && (status >= 0 ==> |t.st| == POOL_SIZE && t.live == s.live)
      && (status >= 0 ==> (status > 0 <==> exists k :: 0 <= k < |s.live| && t.st[s.live[k]].revents.Any()))
  {
    LiveAreSlots(s);
    PrepareKeeps(s, w.fails);
    if s.os.epfd >= 0 {
      BuildEpollFailsExactlyWhen(s, s.live, w.fails);
    }
    var (b, ok) := Prepare(s, w.fails);
    if ok && !w.error {
      ArriveSound(b, w.arrivals);
    }
  }

  // ---------------------------------------------------------------------------------------------
  // Quiet cycles
  // ---------------------------------------------------------------------------------------------

  /** The listed streams that a quiet cycle leaves, in order: those in service that listen or forward. */
  function Staying(s: Sys, l: seq<int>): seq<int>
    requires |s.st| == POOL_SIZE && AllSlots(l)
  {
    if l == [] then []
    else if !s.st[l[0]].abandoned && (s.st[l[0]].role == Listener || s.st[l[0]].level == Forwarding) then [l[0]] + Staying(s, l[1..])
    else Staying(s, l[1..])
  }

  lemma {:induction false} SieveIsStaying(s: Sys, l: seq<int>, drop: set<int>)
    requires |s.st| == POOL_SIZE && AllSlots(l)
    requires forall x :: x in l ==>
               (x !in drop <==> !s.st[x].abandoned && (s.st[x].role == Listener || s.st[x].level == Forwarding))
    ensures Sieve(l, drop) == Staying(s, l)
  {
    if l != [] {
      SieveIsStaying(s, l[1..], drop);
    }
  }

  lemma MarkOneKeeps(s: Sys, i: int)
    requires Shape(s) && i in s.live
    ensures var t := MarkOne(s, i);
      && Shape(t) && t.live == s.live && forall k :: 0 <= k < POOL_SIZE ==> t.st[k] == s.st[k].(abandoned := t.st[k].abandoned)
  {
    AbandonShape(s, i);
  }

  lemma {:induction false} MarkPendingKeeps(s: Sys, l: seq<int>)
    requires Shape(s) && forall x :: x in l ==> x in s.live
    ensures var t := MarkPending(s, l);
      && |t.st| == POOL_SIZE && t.live == s.live
      && forall k :: 0 <= k < POOL_SIZE ==> t.st[k] == s.st[k].(abandoned := t.st[k].abandoned)
    decreases |l|
  {
    if l != [] {
      MarkOneKeeps(s, l[0]);
      MarkPendingKeeps(MarkOne(s, l[0]), l[1..]);
    }
  }

  /** What a time-out leaves when nobody is to be removed yet. */
  lemma TimeOutLeaves(t: Sys)
    requires Good(t) && t.evictions == 0 && AllSlots(t.live) && forall i :: i in t.live ==> !t.st[i].abandoned
    ensures var u := TimeOut(t);
      && u.live == Staying(t, t.live) && |u.st| == POOL_SIZE && forall i :: i in u.live ==> IsSlot(i) && u.st[i] == t.st[i]
  {
    MarkPendingExact(t, t.live);
    MarkPendingKeeps(t, t.live);
    var m := MarkPending(t, t.live);
    CleanupFilters(m);
    forall x | x in t.live
      ensures x !in AbandonedIn(m) <==> !t.st[x].abandoned && (t.st[x].role == Listener || t.st[x].level == Forwarding)
    {
      assert IsSlot(x) && RelatedAt(t, x);
    }
    SieveIsStaying(t, t.live, AbandonedIn(m));
    forall i | i in TimeOut(t).live
      ensures IsSlot(i) && TimeOut(t).st[i] == t.st[i]
    {
      assert i in m.live && IsSlot(i) && !m.st[i].abandoned;
    }
  }

  /** The wait of a cycle failed. */
  ghost predicate WaitFails(s: Sys, c: CycleEnv)
    requires Base(s) && Base(Cleanup(s))
  {
    WatchStreams(Cleanup(s), c.wait).1 < 0
  }

  lemma {:induction false} StayingOfRest(s: Sys, t: Sys, l: seq<int>, drop: set<int>)
    requires |s.st| == POOL_SIZE && |t.st| == POOL_SIZE && AllSlots(l) && AllSlots(Sieve(l, drop))
    requires forall x :: x in l && x in drop ==> s.st[x].abandoned
    requires forall x :: x in l && x !in drop ==>
               !s.st[x].abandoned && !t.st[x].abandoned && t.st[x].role == s.st[x].role && t.st[x].level == s.st[x].level
    ensures Staying(t, Sieve(l, drop)) == Staying(s, l)
  {
    if l != [] {
      assert l[0] in l;
      if l[0] !in drop {
        assert Sieve(l, drop)[1..] == Sieve(l[1..], drop);
      }
      StayingOfRest(s, t, l[1..], drop);
    }
  }

  /**
   * A wait that succeeds and hands nobody events is a time-out.  It drops every client and endpoint that
   * does not forward yet, together with the streams that were to be removed anyway; the others stay, in
   * order and as the wait left them, and the proxy goes on.
   */
  lemma QuietCycle(s: Sys, c: CycleEnv)
    requires Good(s)
    requires Base(Cleanup(s)) && !WaitFails(s, c)
    requires var t := Cycle(s, c).start; |t.st| == POOL_SIZE && forall i :: i in t.live ==> IsSlot(i) && !t.st[i].revents.Any()
    ensures var r := Cycle(s, c);
      && r.ok && r.walk.turns == [] && AllSlots(s.live) && r.s.live == Staying(s, s.live)
      && |r.s.st| == POOL_SIZE && forall i :: i in r.s.live ==> IsSlot(i) && r.s.st[i] == r.start.st[i]
  {
    StartGood(s, c.wait);
    CleanupFilters(s);
    LiveAreSlots(s);
    LiveAreSlots(Cleanup(s));
    WaitStatus(Cleanup(s), c.wait);
    var t := WatchStreams(Cleanup(s), c.wait).0;
    LiveAreSlots(t);
    forall i | i in t.live
      ensures IsSlot(i) && i in s.live && !t.st[i].abandoned && !s.st[i].abandoned && t.st[i].role == s.st[i].role && t.st[i].level == s.st[i].level
    {
      WatchHeard(Cleanup(s), c.wait, i);
      WatchAt(Cleanup(s), c.wait, i);
    }
    TimeOutLeaves(t);
    StayingOfRest(s, t, s.live, AbandonedIn(s));
  }

  /** The listed streams that are not to be removed, in order. */
  function InService(s: Sys, l: seq<int>): seq<int>
    requires |s.st| == POOL_SIZE && AllSlots(l)
  {
    if l == [] then []
    else if !s.st[l[0]].abandoned then [l[0]] + InService(s, l[1..])
    else InService(s, l[1..])
  }

  lemma {:induction false} SieveIsInService(s: Sys, l: seq<int>, drop: set<int>)
    requires |s.st| == POOL_SIZE && AllSlots(l) && forall x :: x in l ==> (x in drop <==> s.st[x].abandoned)
    ensures Sieve(l, drop) == InService(s, l)
  {
    if l != [] {
      SieveIsInService(s, l[1..], drop);
    }
  }

  /**
   * When a wait hands somebody events, the streams in service are walked over, from the newest, as the
   * wait left them, and the cycle comes to what the walk comes to.
   */
  lemma BusyCycle(s: Sys, c: CycleEnv)
    requires Base(s) && Base(Cleanup(s)) && !WaitFails(s, c)
    requires var t := Cycle(s, c).start; |t.st| == POOL_SIZE && exists k :: 0 <= k < |t.live| && IsSlot(t.live[k]) && t.st[t.live[k]].revents.Any()
    ensures var r := Cycle(s, c);
      && AllSlots(s.live) && r.start.live == InService(s, s.live) && r.start.live != []
      && Base(r.start) && r.walk == Walk(r.start, r.start.live[0], c.visits) && r.s == r.walk.s && r.ok == r.walk.ok
  {
    CleanupFilters(s);
    LiveAreSlots(s);
    LiveAreSlots(Cleanup(s));
    WatchBase(Cleanup(s), c.wait);
    WaitStatus(Cleanup(s), c.wait);
    SieveIsInService(s, s.live, AbandonedIn(s));
  }

  // ---------------------------------------------------------------------------------------------
  // The end of the proxy
  // ---------------------------------------------------------------------------------------------

  ghost predicate AllFine(turns: seq<Turn>) {
    forall t :: t in turns ==> Sound(t.before) && t.slot in t.before.live && Visit(t.before, t.slot, t.e).ok
  }

  lemma FineMore(t: Turn, turns: seq<Turn>)
    ensures AllFine([t] + turns) <==> AllFine([t]) && AllFine(turns)
  {
    assert forall u :: u in [t] + turns <==> u in [t] || u in turns;
  }

  lemma FineOne(t: Turn)
    requires Sound(t.before) && t.slot in t.before.live
    ensures AllFine([t]) <==> Visit(t.before, t.slot, t.e).ok
  {
    assert t in [t];
  }

  /** A walk ends well exactly when every turn of it does. */
  lemma {:induction false} WalkFineExactlyWhen(s: Sys, cur: int, visits: seq<Env>)
    requires Base(s) && (cur == NULL || cur in s.live)
    ensures Walk(s, cur, visits).ok <==> AllFine(Walk(s, cur, visits).turns)
    decreases Potential(s.st), |From(s.live, cur)|
  {
    if cur != NULL {
      WalkProgress(s, cur, Next(visits));
      WalkTurn(s, cur, visits);
      FineOne(Turn(cur, s, Next(visits)));
      var r := Visit(s, cur, Next(visits));
      if r.ok {
        WalkFineExactlyWhen(r.s, NextOf(s.live, cur), Rest(visits));
        FineMore(Turn(cur, s, Next(visits)), Walk(r.s, NextOf(s.live, cur), Rest(visits)).turns);
      }
    }
  }

  /** A cycle ends the proxy exactly when its wait fails or one of its turns is a severe error. */
  lemma CycleFailsExactlyWhen(s: Sys, c: CycleEnv)
    requires Base(s)
    ensures Base(Cleanup(s)) && (Cycle(s, c).ok <==> !WaitFails(s, c) && AllFine(Cycle(s, c).walk.turns))
  {
    CleanupBase(s);
    WatchBase(Cleanup(s), c.wait);
    var (t, status) := WatchStreams(Cleanup(s), c.wait);
    if status > 0 {
      WalkFineExactlyWhen(t, Head(t), c.visits);
    }
  }

  /** The proxy starts exactly when there is a listening socket; it uses epoll exactly when that is to be had. */
  lemma StartsExactlyWhen(epfd: int, listen: Dialing)
    ensures Boot(epfd, listen).1 <==> listen.Pending? && listen.fd >= 0 && (epfd < 0 || listen.fd != epfd)
    ensures Boot(epfd, listen).1 ==>
              var s := Boot(epfd, listen).0;
              && s.live == [0] && s.os.epfd == (if epfd >= 0 then epfd else -1)
              && s.st[0] == Stream(Listener, listen.fd, Idle, false, Events(true, false, false, false), NONE, NONE, Unwatched, NULL, [],
                                   Sock([], [], [], [], [], []), false)
  {
  }

  /** And it runs for as long as no cycle fails. */
  lemma RunsOnExactlyWhen(epfd: int, listen: Dialing, cs: seq<CycleEnv>)
    requires Boot(epfd, listen).1
    ensures Base(Boot(epfd, listen).0)
    ensures var run := Run(Boot(epfd, listen).0, cs);
      && (Life(epfd, listen, cs).1 <==> forall r :: r in run.cycles ==> r.ok)
      && (Life(epfd, listen, cs).1 ==> Life(epfd, listen, cs).0 == run.s && |run.cycles| == |cs|)
  {
    BootBase(epfd, listen);
    RunOkExactlyWhen(Boot(epfd, listen).0, cs);
  }

  lemma {:induction false} RunOkExactlyWhen(s: Sys, cs: seq<CycleEnv>)
    requires Base(s)
    ensures var run := Run(s, cs); (run.ok <==> forall r :: r in run.cycles ==> r.ok) && (run.ok ==> |run.cycles| == |cs|)
    decreases |cs|
  {
    if cs != [] {
      FirstCycle(s, cs);
      if Cycle(s, cs[0]).ok {
        RunOkExactlyWhen(Cycle(s, cs[0]).s, cs[1..]);
      }
    }
  }
}
