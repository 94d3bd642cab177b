/**
 * A life in which a handshake leaves its script.  It goes on where TearLives ends: the client in slot 1
 * still has `neighbour` 2, whose endpoint is gone.  The client in slot 4 is dialled with its endpoint in
 * slot 2, and both are promoted; then the connection of slot 1 is lost, and the endpoint in slot 2 is
 * dropped with it.  Two clients connect, the second into slot 2, and the client in slot 4, which
 * still forwards to that slot, changes its events.
 */
module StrayLives {
  import opened Bytes
  import opened PollEvents
  import opened LiveLists
  import opened Socks
  import opened Streams
  import opened Handlers
  import opened BaseInvariant
  import opened Handshakes
  import opened Watching
  import opened Runs
  import opened Limits
  import opened Crowds
  import opened TearLives

  // ---------------------------------------------------------------------------------------------
  // Cycles of one turn
  // ---------------------------------------------------------------------------------------------

  /** What removing the abandoned streams and a wait that reports something for `i` leave. */
  ghost predicate WaitedFor(s: Sys, i: int, bytes: seq<byte>, t: Sys) {
    && |s.st| == POOL_SIZE && |t.st| == POOL_SIZE && t.os.epfd == -1
    && (forall k :: 0 <= k < POOL_SIZE ==> (k in t.live <==> k in s.live && !s.st[k].abandoned))
    && forall k :: 0 <= k < POOL_SIZE && k in t.live ==> Like(t.st[k], if k == i then Fed(s.st[k], bytes) else s.st[k])
  }

  lemma CleanKeeps(s: Sys)
    requires Base(s)
    ensures Base(Cleanup(s)) && Cleanup(s).os.epfd == s.os.epfd
    ensures forall k :: k in Cleanup(s).live <==> k in s.live && !s.st[k].abandoned
    ensures forall k :: k in Cleanup(s).live ==> Cleanup(s).st[k] == s.st[k]
  {
    CleanupBase(s);
    CleanupFilters(s);
  }

  lemma OwnDescriptor(s: Sys, i: int, k: int, events: Events)
    requires Base(s) && i in s.live && k in s.live && k != i && IsSlot(i) && IsSlot(k)
    ensures Revents(s.st[k], [Ready(s.st[i].fd, events)]) == NONE
    ensures s.st[i].events.Any() ==> Revents(s.st[i], [Ready(s.st[i].fd, events)]) == Clip(events, s.st[i].events.Armed())
  {
    var ready := [Ready(s.st[i].fd, events)];
    assert ready[1..] == [] && Reported(ready[1..], s.st[k].fd) == NONE;
    assert s.st[k].fd != s.st[i].fd;
  }

  lemma OwnReport(x: Stream, events: Events)
    requires x.events.Any()
    ensures Revents(x, [Ready(x.fd, events)]) == Clip(events, x.events.Armed())
  {
  }

  lemma LoneWaitIn(s: Sys, i: int, bytes: seq<byte>, events: Events) returns (w: Wait, t: Sys)
    requires Base(s) && s.os.epfd == -1 && i in s.live && IsSlot(i) && !s.st[i].abandoned
    requires s.st[i].events.Any() && Clip(events, s.st[i].events.Armed()).Any()
    ensures LoneAt(s, w, t, i) && WaitedFor(s, i, bytes, t) && t.st[i].revents == Clip(events, s.st[i].events.Armed())
  {
    CleanKeeps(s);
    var c := Cleanup(s);
    w := Wait.Wait({}, false, [Arrival(i, bytes)], [Ready(s.st[i].fd, events)]);
    t := Waited(c, w);
    WaitedFrame(c, w);
    forall k | 0 <= k < POOL_SIZE && k in c.live
      ensures WaitedAt(c, w, t, k) && t.st[k].revents == if k == i then Clip(events, s.st[i].events.Armed()) else NONE
    {
      WaitedOne(c, w, k);
      OwnReport(s.st[i], events);
      if k != i {
        OwnDescriptor(c, i, k, events);
      }
    }
    WatchIsWaited(c, w, i);
    WatchBase(c, w);
    LiveSlots(c);
  }

  lemma LiveSlots(s: Sys)
    requires Shape(s)
    ensures forall k :: k in s.live ==> 0 <= k < POOL_SIZE
  {
    forall k | k in s.live
      ensures 0 <= k < POOL_SIZE
    {
      assert IsSlot(k);
    }
  }

  /** The wait frees the slots of abandoned streams. */
  lemma PooledWait(s: Sys, free: set<int>, gone: set<int>, n: int, i: int, bytes: seq<byte>, t: Sys)
    requires Pooled(s, free, gone, n) && WaitedFor(s, i, bytes, t) && Base(t) && forall x :: x in gone ==> x in s.live
    ensures Pooled(t, free + gone, {}, n)
  {
  }

  lemma PooledSlot(s: Sys, free: set<int>, gone: set<int>, n: int, k: int)
    requires Pooled(s, free, gone, n) && k in free && 0 <= k < POOL_SIZE && forall x :: x in free ==> k <= x
    ensures FreeSlot(s) == k
  {
    assert k !in s.live;
  }

  lemma PooledFresh(s: Sys, free: set<int>, gone: set<int>, n: nat)
    requires Pooled(s, free, gone, n)
    ensures Fresh(s, n)
  {
    forall i | i in s.live
      ensures s.st[i].fd < n
    {
      assert IsSlot(i);
    }
  }

  lemma AcceptingIn(t: Sys, k: int, fd: int) returns (u: Sys)
    requires Base(t) && 0 in t.live && Like(t.st[0], DOOR) && t.st[0].revents == IN && FreeSlot(t) == k != NULL && Fresh(t, fd)
    ensures Visit(t, 0, AcceptOn(fd)) == Outcome(u, true, NULL) && Base(u)
    ensures u.live == [k] + t.live && u.st == t.st[k := IdleClient(fd)] && u.os.epfd == t.os.epfd
  {
    var e := AcceptOn(fd);
    VisitBase(t, 0, e);
    u := Visit(t, 0, e).s;
    SeatedIn(t, k, fd);
    DoorTurn(t, e);
  }

  lemma DoorTurn(t: Sys, e: Env)
    requires Sound(t) && 0 in t.live && Like(t.st[0], DOOR) && t.st[0].revents == IN && e.arrivals == []
    ensures Visit(t, 0, e) == HandleNewStream(t, 0, e)
  {
    assert Visit(t, 0, e) == React(t, 0, e);
  }

  lemma SeatedIn(t: Sys, k: int, fd: int)
    requires Base(t) && 0 in t.live && t.st[0].revents.rd && FreeSlot(t) == k != NULL && Fresh(t, fd)
    ensures var r := HandleNewStream(t, 0, AcceptOn(fd));
      && r.ok && r.victim == NULL && r.s.live == [k] + t.live && r.s.st == t.st[k := IdleClient(fd)] && r.s.os.epfd == t.os.epfd
  {
    OpenBase(t, fd);
    assert t.st[k := Blank(fd)][k := IdleClient(fd)] == t.st[k := IdleClient(fd)];
  }

  lemma DiallingIn(t: Sys, i: int, k: int, fd: int) returns (u: Sys)
    requires Base(t) && i in t.live && IsSlot(i) && Like(t.st[i], Fed(GreetedClient(i), REQUEST)) && t.st[i].revents == IN
    requires FreeSlot(t) == k != NULL && Fresh(t, fd)
    ensures Visit(t, i, DialOn(fd)) == Outcome(u, true, NULL) && Base(u) && i != k
    ensures u.live == [k] + t.live && u.os.epfd == t.os.epfd
    ensures u.st == t.st[k := PendingEndpoint(fd, i)][i := Answer(Read(t.st[i]), Pass, GRANT).(neighbour := k)]
  {
    var e := DialOn(fd);
    VisitBase(t, i, e);
    u := Visit(t, i, e).s;
    RequestRead(t.st[i]);
    CompletingDials(t, i, e);
    assert Visit(t, i, e) == SetupEndpoint(Put(t, i, Read(t.st[i])), i, e);
    PutBase(t, i, Read(t.st[i]));
    JoinedIn(t, Put(t, i, Read(t.st[i])), i, k, fd);
  }

  lemma JoinedIn(t: Sys, o: Sys, i: int, k: int, fd: int)
    requires Base(o) && i in o.live && IsSlot(i) && |t.st| == POOL_SIZE && o == t.(st := t.st[i := Read(t.st[i])])
    requires FreeSlot(o) == k != NULL && Fresh(o, fd)
    ensures var r := SetupEndpoint(o, i, DialOn(fd));
      && r.ok && r.victim == NULL && i != k && r.s.live == [k] + o.live && r.s.os.epfd == o.os.epfd
      && r.s.st == t.st[k := PendingEndpoint(fd, i)][i := Answer(Read(t.st[i]), Pass, GRANT).(neighbour := k)]
  {
    OpenBase(o, fd);
    var u := SetupEndpoint(o, i, DialOn(fd)).s;
    var st := t.st[k := PendingEndpoint(fd, i)][i := Answer(Read(t.st[i]), Pass, GRANT).(neighbour := k)];
    forall x | 0 <= x < POOL_SIZE
      ensures u.st[x] == st[x]
    {
    }
  }

  // ---------------------------------------------------------------------------------------------
  // From the tear to the stray turn
  // ---------------------------------------------------------------------------------------------

  /** The client in slot 4 forwards to slot 2. */
  predicate Forwarder(x: Stream) {
    x.role == Client && x.level == Forwarding && x.events == IN && x.neighbour == 2
  }

  ghost predicate Dialled4(u: Sys) {
    && Pooled(u, {}, {}, POOL_SIZE + 3) && Like(u.st[0], DOOR) && Awaits(u.st[1], 2)
    && Like(u.st[2], PendingEndpoint(POOL_SIZE + 2, 4)) && u.st[4].role == Client && u.st[4].neighbour == 2
  }

  lemma Dialling4(z: Sys) returns (cs: seq<CycleEnv>, u: Sys)
    requires Aftermath(z)
    ensures Reaches(z, cs, u) && Dialled4(u)
  {
    var w, t := LoneWaitIn(z, 4, REQUEST, IN);
    PooledWait(z, {}, {2}, POOL_SIZE + 2, 4, REQUEST, t);
    assert {} + {2} == {2};
    PooledSlot(t, {2}, {}, POOL_SIZE + 2, 2);
    PooledFresh(t, {2}, {}, POOL_SIZE + 2);
    u := DiallingIn(t, 4, 2, POOL_SIZE + 2);
    DialledIs(t, u);
    cs := LoneEnds(z, w, t, 4, DialOn(POOL_SIZE + 2), u);
  }

  lemma DialledIs(t: Sys, u: Sys)
    requires Pooled(t, {2}, {}, POOL_SIZE + 2) && Like(t.st[0], DOOR) && Awaits(t.st[1], 2) && Like(t.st[4], Fed(GreetedClient(4), REQUEST))
    requires Base(u) && u.live == [2] + t.live && u.os.epfd == t.os.epfd
    requires u.st == t.st[2 := PendingEndpoint(POOL_SIZE + 2, 4)][4 := Answer(Read(t.st[4]), Pass, GRANT).(neighbour := 2)]
    ensures Dialled4(u)
  {
  }

  ghost predicate Promoted4(u: Sys) {
    Pooled(u, {}, {}, POOL_SIZE + 3) && Like(u.st[0], DOOR) && Awaits(u.st[1], 2) && Forwarder(u.st[4])
  }

  lemma Promoting4(z: Sys) returns (cs: seq<CycleEnv>, u: Sys)
    requires Dialled4(z)
    ensures Reaches(z, cs, u) && Promoted4(u)
  {
    var w, t := LoneWaitIn(z, 2, [], OUT);
    PooledWait(z, {}, {}, POOL_SIZE + 3, 2, [], t);
    NothingArrives(z.st[2]);
    u := PromotedIs(t);
    cs := LoneEnds(z, w, t, 2, FLOWING, u);
  }

  lemma PromotedIs(t: Sys) returns (u: Sys)
    requires Dialled4(t) && 2 in t.live && t.st[2].revents == OUT
    ensures Visit(t, 2, FLOWING) == Outcome(u, true, NULL) && Promoted4(u)
  {
    VisitBase(t, 2, FLOWING);
    u := Promote(t, 2);
    ConnectedTurn(t, 2);
    BothForward(t, u);
  }

  lemma ConnectedTurn(t: Sys, i: int)
    requires Sound(t) && i in t.live && IsSlot(i) && t.st[i].revents == OUT && !t.st[i].abandoned
    requires t.st[i].role == Endpoint && t.st[i].level == Connecting && t.st[i].neighbour != NULL
    ensures Visit(t, i, FLOWING) == Outcome(Promote(t, i), true, NULL)
  {
    assert Visit(t, i, FLOWING) == React(t, i, FLOWING);
    assert React(t, i, FLOWING) == HandleEvents(t, i, FLOWING);
  }

  lemma BothForward(t: Sys, u: Sys)
    requires Dialled4(t) && u == Promote(t, 2) && Base(u)
    ensures Promoted4(u)
  {
    assert u.live == t.live && u.os == t.os;
    forall x | 0 <= x < POOL_SIZE
      ensures u.st[x].abandoned == t.st[x].abandoned && u.st[x].fd == t.st[x].fd
    {
    }
  }

  const HUP := Events(false, false, false, true)

  ghost predicate Dropped2(u: Sys) {
    Pooled(u, {}, {1, 2}, POOL_SIZE + 3) && Like(u.st[0], DOOR) && Forwarder(u.st[4])
  }

  lemma Dropping2(z: Sys) returns (cs: seq<CycleEnv>, u: Sys)
    requires Promoted4(z)
    ensures Reaches(z, cs, u) && Dropped2(u)
  {
    var w, t := LoneWaitIn(z, 1, [], HUP);
    PooledWait(z, {}, {}, POOL_SIZE + 3, 1, [], t);
    NothingArrives(z.st[1]);
    u := DroppedIs(t);
    cs := LoneEnds(z, w, t, 1, FLOWING, u);
  }

  lemma DroppedIs(t: Sys) returns (u: Sys)
    requires Promoted4(t) && 1 in t.live && t.st[1].revents.hup
    ensures Visit(t, 1, FLOWING) == Outcome(u, true, NULL) && Dropped2(u)
  {
    VisitBase(t, 1, FLOWING);
    HangupTurn(t, 1);
    AbandonBoth(t, 1, 2);
    u := Abandon(t, 1);
  }

  /** A connection is accepted in a free slot, and the forwarder goes on. */
  lemma Refilling(z: Sys, free: set<int>, gone: set<int>, k: int, n: nat) returns (cs: seq<CycleEnv>, u: Sys)
    requires Pooled(z, free, gone, n) && Like(z.st[0], DOOR) && Forwarder(z.st[4]) && 4 != k && (forall x :: x in gone ==> x in z.live)
    requires k in free + gone && 0 < k < POOL_SIZE && (forall x :: x in free + gone ==> k <= x) && 0 !in free + gone && 4 !in free + gone
    ensures Reaches(z, cs, u) && Pooled(u, free + gone - {k}, {}, n + 1)
    ensures Like(u.st[0], DOOR) && Forwarder(u.st[4]) && u.st[k] == IdleClient(n)
  {
    var w, t := LoneWaitIn(z, 0, [], IN);
    PooledWait(z, free, gone, n, 0, [], t);
    PooledSlot(t, free + gone, {}, n, k);
    PooledFresh(t, free + gone, {}, n);
    NothingArrives(z.st[0]);
    ForwarderWaits(z, free, gone, n, t);
    u := AcceptingIn(t, k, n);
    RefilledIs(t, free + gone, k, n, u);
    cs := LoneEnds(z, w, t, 0, AcceptOn(n), u);
  }

  lemma RefilledIs(t: Sys, free: set<int>, k: int, n: nat, u: Sys)
    requires Pooled(t, free, {}, n) && 0 < k < POOL_SIZE && k != 4 && k in free
    requires Like(t.st[0], DOOR) && Forwarder(t.st[4]) && Base(u)
    requires u.live == [k] + t.live && u.st == t.st[k := IdleClient(n)] && u.os.epfd == t.os.epfd
    ensures Pooled(u, free - {k}, {}, n + 1) && Like(u.st[0], DOOR) && Forwarder(u.st[4]) && u.st[k] == IdleClient(n)
  {
  }

  lemma ForwarderWaits(z: Sys, free: set<int>, gone: set<int>, n: int, t: Sys)
    requires Pooled(z, free, gone, n) && WaitedFor(z, 0, [], t) && Forwarder(z.st[4]) && 4 !in free + gone
    ensures Forwarder(t.st[4])
  {
  }

  lemma NothingArrives(x: Stream)
    ensures Fed(x, []) == x
  {
    assert x.sock.unread + [] == x.sock.unread && x.sock.arrived + [] == x.sock.arrived;
  }

  ghost predicate Refilled2(u: Sys) {
    Pooled(u, {}, {}, POOL_SIZE + 5) && Like(u.st[2], IdleClient(POOL_SIZE + 4)) && Forwarder(u.st[4])
  }

  lemma RefillingBoth(z: Sys) returns (cs: seq<CycleEnv>, u: Sys)
    requires Dropped2(z)
    ensures Reaches(z, cs, u) && Refilled2(u)
  {
    var n := POOL_SIZE + 3;
    var first, t := Refilling(z, {}, {1, 2}, 1, n);
    var second;
    var free := {} + {1, 2} - {1};
    assert free == {2};
    second, u := Refilling(t, {2}, {}, 2, n + 1);
    var none := {2} + {} - {2};
    assert none == {};
    ReachesTwice(z, first, t, second, u);
    cs := first + second;
  }

  /** The stray turn: the newcomer in slot 2 is to be written to before it has sent anything. */
  lemma Straying(z: Sys) returns (cs: seq<CycleEnv>, u: Sys)
    requires Refilled2(z)
    ensures Reaches(z, cs, u) && Shape(u) && !Shaken(u)
  {
    var w, t := LoneWaitIn(z, 4, [], IN);
    PooledWait(z, {}, {}, POOL_SIZE + 5, 4, [], t);
    VisitBase(t, 4, FLOWING);
    u := Visit(t, 4, FLOWING).s;
    StrayTurn(t);
    cs := LoneEnds(z, w, t, 4, FLOWING, u);
  }

  lemma ForwardingTurn(t: Sys, i: int)
    requires Sound(t) && i in t.live && IsSlot(i) && t.st[i].revents == IN && !t.st[i].abandoned && Forwards(t, i, FLOWING)
    ensures Visit(t, i, FLOWING) == HandleEvents(t, i, FLOWING)
  {
    assert Visit(t, i, FLOWING) == React(t, i, FLOWING);
  }

  /** The neighbour is to be written to. */
  lemma ReadablePasses(t: Sys, i: int)
    requires Sound(t) && i in t.live && IsSlot(i) && t.st[i].revents == IN && Forwards(t, i, FLOWING)
    ensures var r := HandleEvents(t, i, FLOWING);
      var j := t.st[i].neighbour;
      && r.ok && r.victim == NULL && r.s.live == t.live && |r.s.st| == POOL_SIZE && r.s.st[j] == t.st[j].(events := t.st[j].events.(wr := true))
  {
  }

  lemma StrayTurn(t: Sys)
    requires Pooled(t, {}, {}, POOL_SIZE + 5) && Like(t.st[2], IdleClient(POOL_SIZE + 4)) && Forwarder(t.st[4])
    requires t.st[4].revents == IN && 4 in t.live && 2 in t.live
    ensures var r := Visit(t, 4, FLOWING); r.ok && r.victim == NULL && Shape(r.s) && !Shaken(r.s)
  {
    Disturbs(t, 4, 2);
  }

  lemma Disturbs(t: Sys, i: int, j: int)
    requires Base(t) && i in t.live && j in t.live && IsSlot(i) && IsSlot(j)
    requires t.st[i].level == Forwarding && t.st[i].neighbour == j && !t.st[i].abandoned && t.st[i].revents == IN
    requires t.st[j].role == Client && t.st[j].level == Ver && t.st[j].events == IN && !t.st[j].abandoned
    ensures var r := Visit(t, i, FLOWING); r.ok && r.victim == NULL && Shape(r.s) && !Shaken(r.s)
  {
    VisitBase(t, i, FLOWING);
    ForwardingTurn(t, i);
    ReadablePasses(t, i);
    var u := Visit(t, i, FLOWING).s;
    assert j in u.live && !ShakenAt(u.st[j]);
  }

  /** A run whose scripts hold ends in a state where they do. */
  lemma {:induction false} ScriptedEnd(s: Sys, cs: seq<CycleEnv>)
    requires Base(s) && Shaken(s) && Run(s, cs).ok && AllScripted(Run(s, cs))
    ensures Shape(Run(s, cs).s) && Shaken(Run(s, cs).s)
    decreases |cs|
  {
    if cs != [] {
      FirstCycle(s, cs);
      RunScripts(s, cs);
      ScriptedEnd(Cycle(s, cs[0]).s, cs[1..]);
    }
  }

  lemma FromTear(z: Sys) returns (cs: seq<CycleEnv>, u: Sys)
    requires Aftermath(z)
    ensures Reaches(z, cs, u) && Shape(u) && !Shaken(u)
  {
    var a, z1 := Dialling4(z);
    var b, z2 := Promoting4(z1);
    var c, z3 := Dropping2(z2);
    var d, z5 := RefillingBoth(z3);
    var f, z6 := Straying(z5);
    ReachesTwice(z, a, z1, b, z2);
    ReachesTwice(z, a + b, z2, c, z3);
    ReachesTwice(z, a + b + c, z3, d, z5);
    ReachesTwice(z, a + b + c + d, z5, f, z6);
    cs, u := a + b + c + d + f, z6;
  }

  /** There is a life of the proxy in which a turn strays and a handshake leaves its script. */
  lemma StrayHappens() returns (epfd: int, listen: Dialing, cs: seq<CycleEnv>)
    ensures Boot(epfd, listen).1 && Base(Boot(epfd, listen).0)
    ensures var run := Run(Boot(epfd, listen).0, cs); !NoStrays(run) && !AllScripted(run)
  {
    epfd, listen := -1, Pending(0);
    var s := Boot(epfd, listen).0;
    var a, t := Gathering();
    var c := Tearing(t);
    ReachesOne(t, c);
    var z := Cycle(t, c).s;
    var b, u := FromTear(z);
    ReachesTwice(s, a, t, [c], z);
    ReachesTwice(s, a + [c], z, b, u);
    cs := a + [c] + b;
    BootGood(epfd, listen);
    RunShaken(s, cs);
    if AllScripted(Run(s, cs)) {
      ScriptedEnd(s, cs);
    }
  }
}
