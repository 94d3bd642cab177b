/**
 * A life in which an eviction takes a stale stream and a pair is torn.  Two clients connect and are
 * greeted, the second one's request is dialled, and clients connect until the pool is full.  Then one
 * wait reports that the dialled connection failed, that the first client sent its request, and that
 * one more client connects.
 */
module TearLives {
  import opened PollEvents
  import opened LiveLists
  import opened Socks
  import opened Streams
  import opened Handlers
  import opened BaseInvariant
  import opened Relations
  import opened Walks
  import opened Watching
  import opened Runs
  import opened Limits
  import opened Crowds

  // ---------------------------------------------------------------------------------------------
  // Up to the full pool
  // ---------------------------------------------------------------------------------------------

  /** A client whose request was dialled; the reply is queued. */
  function GrantedClient(fd: int, k: int): Stream {
    Blank(fd).(role := Client, level := Pass, events := OUT, neighbour := k, queue := GRANT,
               sock := Sock([], NO_AUTH, GREETING + REQUEST, [], [], NO_AUTH))
  }

  /** A client that was sent everything and awaits its endpoint in slot `k`. */
  function AwaitingClient(fd: int, k: int): Stream {
    Blank(fd).(role := Client, level := Pass, neighbour := k, sock := Sock([], NO_AUTH + GRANT, GREETING + REQUEST, [], [], NO_AUTH + GRANT))
  }

  /** An endpoint whose connection is pending. */
  function PendingEndpoint(fd: int, k: int): Stream {
    Blank(fd).(role := Endpoint, level := Connecting, events := INOUT, neighbour := k)
  }

  function Started(): seq<Stream> {
    [DOOR, GreetedClient(1), GreetedClient(2)]
  }

  function Newcomers(): seq<Stream> {
    [DOOR, IdleClient(1), IdleClient(2)]
  }

  /** Two clients connect. */
  lemma Starting(s: Sys) returns (cs: seq<CycleEnv>, t: Sys)
    requires Crowd(s, [DOOR])
    ensures Reaches(s, cs, t) && Crowd(t, Newcomers())
  {
    var f, g := [DOOR], [DOOR, IdleClient(1)];
    TwoNewcomers(f, g);
    var first, u := Accepting(s, f);
    var second;
    second, t := Accepting(u, g);
    ReachesTwice(s, first, u, second, t);
    cs := first + second;
  }

  lemma TwoNewcomers(f: seq<Stream>, g: seq<Stream>)
    requires f == [DOOR] && g == [DOOR, IdleClient(1)]
    ensures |f| == 1 && |g| == 2 && f[0] == g[0] == DOOR && f + [IdleClient(|f|)] == g && g + [IdleClient(|g|)] == Newcomers()
  {
  }

  lemma GreetingBoth(s: Sys) returns (cs: seq<CycleEnv>, t: Sys)
    requires Crowd(s, Newcomers())
    ensures Reaches(s, cs, t) && Crowd(t, Started())
  {
    var f, g := Newcomers(), Newcomers()[1 := GreetedClient(1)];
    BothGreeted(f, g);
    var first, u := Greeting(s, f, 1);
    var second;
    second, t := Greeting(u, g, 2);
    ReachesTwice(s, first, u, second, t);
    cs := first + second;
  }

  lemma BothGreeted(f: seq<Stream>, g: seq<Stream>)
    requires f == Newcomers() && g == f[1 := GreetedClient(1)]
    ensures |f| == |g| == 3 && f[1] == IdleClient(1) && g[2] == IdleClient(2) && g[2 := GreetedClient(2)] == Started()
  {
  }

  function Dialled(): seq<Stream> {
    [DOOR, GreetedClient(1), GrantedClient(2, 3), PendingEndpoint(3, 2)]
  }

  function Requesting(): seq<Stream> {
    [DOOR, GreetedClient(1), Fed(GreetedClient(2), REQUEST)]
  }

  /** The turn in which the request of slot 2 is dialled, the pool not being full. */
  lemma DiallingTurn(t: Sys)
    requires Crowd(t, Requesting()) && t.st[2].revents == IN
    ensures Sound(t) && 2 in t.live && Visit(t, 2, DialOn(3)).ok && Visit(t, 2, DialOn(3)).victim == NULL
    ensures Crowd(Visit(t, 2, DialOn(3)).s, Dialled())
  {
    var f := Requesting();
    CrowdBase(t, f);
    assert SeatedAt(t, f, 2);
    var me := t.st[2];
    RequestRead(me);
    CompletingDials(t, 2, DialOn(3));
    var o := Put(t, 2, Read(me));
    assert Visit(t, 2, DialOn(3)) == SetupEndpoint(o, 2, DialOn(3));
    DialledPool(t, o);
  }

  lemma DialledPool(t: Sys, o: Sys)
    requires Crowd(t, Requesting()) && Sound(o) && 2 in o.live
    requires Chunk(t.st[2]) == REQUEST && o == Put(t, 2, Read(t.st[2]))
    ensures var r := SetupEndpoint(o, 2, DialOn(3)); r.ok && r.victim == NULL && Crowd(r.s, Dialled())
  {
    var f := Requesting();
    assert SeatedAt(t, f, 2);
    var y := Read(f[2]);
    CrowdChanged(t, f, 2, Read(t.st[2]), y);
    var g := f[2 := y];
    CrowdSeats(o, g, 2, Endpoint, Connecting, INOUT);
    var x := Blank(3).(role := Endpoint, level := Connecting, events := INOUT);
    CrowdGrown(o, g, x, x);
    var h, u := g + [x], With(o, x);
    CrowdChanged(u, h, 3, PendingEndpoint(3, 2), PendingEndpoint(3, 2));
    var z := Answer(o.st[2], Pass, GRANT).(neighbour := 3);
    CrowdChanged(u.(st := u.st[3 := PendingEndpoint(3, 2)]), h[3 := PendingEndpoint(3, 2)], 2, z, GrantedClient(2, 3));
    assert h[3 := PendingEndpoint(3, 2)][2 := GrantedClient(2, 3)] == Dialled();
  }

  lemma Dialling(s: Sys) returns (cs: seq<CycleEnv>, u: Sys)
    requires Crowd(s, Started())
    ensures Reaches(s, cs, u) && Crowd(u, Dialled())
  {
    var w, t := LoneWait(s, Started(), 2, REQUEST, IN);
    assert Started()[2 := Fed(GreetedClient(2), REQUEST)] == Requesting();
    DiallingTurn(t);
    u := Visit(t, 2, DialOn(3)).s;
    cs := LoneEnds(s, w, t, 2, DialOn(3), u);
  }

  function Paired(): seq<Stream> {
    [DOOR, GreetedClient(1), AwaitingClient(2, 3), PendingEndpoint(3, 2)]
  }

  lemma Pairing(s: Sys) returns (cs: seq<CycleEnv>, t: Sys)
    requires Crowd(s, Started())
    ensures Reaches(s, cs, t) && Crowd(t, Paired())
  {
    var first, u := Dialling(s);
    var second;
    second, t := Draining(u, Dialled(), 2);
    assert Dialled()[2 := Drained(GrantedClient(2, 3))] == Paired();
    ReachesTwice(s, first, u, second, t);
    cs := first + second;
  }

  /** The full pool, with one more client greeted. */
  function Gathered(): seq<Stream> {
    Filled(Paired())[4 := GreetedClient(4)]
  }

  lemma Gathering() returns (cs: seq<CycleEnv>, t: Sys)
    ensures Boot(-1, Pending(0)).1 && Reaches(Boot(-1, Pending(0)).0, cs, t) && Crowd(t, Gathered())
  {
    Opening();
    var s := Boot(-1, Pending(0)).0;
    var a, t1 := Starting(s);
    var b, t2 := GreetingBoth(t1);
    var c, t3 := Pairing(t2);
    var d, t4 := FillingUp(t3);
    ReachesTwice(s, a, t1, b, t2);
    ReachesTwice(s, a + b, t2, c, t3);
    ReachesTwice(s, a + b + c, t3, d, t4);
    cs, t := a + b + c + d, t4;
  }

  lemma FillingUp(s: Sys) returns (cs: seq<CycleEnv>, t: Sys)
    requires Crowd(s, Paired())
    ensures Reaches(s, cs, t) && Crowd(t, Gathered())
  {
    var first, u := Filling(s, Paired());
    FilledAt(4);
    var second;
    second, t := Greeting(u, Filled(Paired()), 4);
    ReachesTwice(s, first, u, second, t);
    cs := first + second;
  }

  lemma FilledAt(i: int)
    requires 0 <= i < POOL_SIZE
    ensures Filled(Paired())[i] == if i < 4 then Paired()[i] else IdleClient(i)
  {
  }

  // ---------------------------------------------------------------------------------------------
  // The fatal wait
  // ---------------------------------------------------------------------------------------------

  const LOST := Events(true, true, true, true)

  const READY := [Ready(0, IN), Ready(1, IN), Ready(3, LOST)]

  /** The pool after the wait. */
  function Doomed(): seq<Stream> {
    Gathered()[1 := Fed(GreetedClient(1), REQUEST)]
  }

  function Reports(i: int): Events {
    if i == 0 || i == 1 then IN else if i == 3 then LOST else NONE
  }

  ghost predicate Struck(s: Sys) {
    Crowd(s, Doomed()) && forall i :: 0 <= i < POOL_SIZE ==> s.st[i].revents == Reports(i)
  }

  lemma DoomedAt(i: int)
    requires 0 <= i < POOL_SIZE
    ensures Gathered()[i] == if i < 4 then Paired()[i] else if i == 4 then GreetedClient(4) else IdleClient(i)
    ensures Doomed()[i] == if i == 1 then Fed(GreetedClient(1), REQUEST) else Gathered()[i]
  {
    FilledAt(i);
  }

  lemma ReportedAt(i: int)
    requires 0 <= i < POOL_SIZE
    ensures Revents(Gathered()[i], READY) == Reports(i)
  {
    DoomedAt(i);
    var rest := READY[1..];
    assert Reported(rest[1..], i) == if i == 3 then LOST else NONE;
    assert Reported(rest, i) == if i == 1 then IN else Reported(rest[1..], i);
  }

  lemma StrikingWait(s: Sys) returns (w: Wait, t: Sys)
    requires Crowd(s, Gathered())
    ensures Base(s) && Base(t) && Struck(t)
    ensures forall visits :: var r := Walk(t, Head(t), visits); Cycle(s, CycleEnv(w, visits)) == CycleResult(r.s, r.ok, t, r)
  {
    w := Wait.Wait({}, false, [Arrival(1, REQUEST)], READY);
    ReportedAt(1);
    DoomedAt(1);
    t := CrowdCycle(s, Gathered(), w, 1);
    forall i | 0 <= i < POOL_SIZE
      ensures t.st[i].revents == Reports(i)
    {
      ReportedAt(i);
    }
  }

  // ---------------------------------------------------------------------------------------------
  // The fatal walk
  // ---------------------------------------------------------------------------------------------

  lemma StruckAt(s: Sys, i: int)
    requires Struck(s) && 0 <= i < POOL_SIZE
    ensures Like(s.st[i], Doomed()[i]) && s.st[i].revents == Reports(i) && !s.st[i].abandoned
    ensures Doomed()[i] == if i == 1 then Fed(GreetedClient(1), REQUEST) else if i < 4 then Paired()[i] else if i == 4 then GreetedClient(4) else IdleClient(i)
  {
    DoomedAt(i);
    assert SeatedAt(s, Doomed(), i);
  }

  predicate Alone(x: Stream) {
    Like(x, DOOR) || Like(x, IdleClient(x.fd)) || Like(x, GreetedClient(x.fd)) || Like(x, Fed(GreetedClient(x.fd), REQUEST))
  }

  lemma AloneFine(s: Sys, i: int)
    requires |s.st| == POOL_SIZE && IsSlot(i) && Alone(s.st[i])
    ensures RelatedAt(s, i) && SafeAt(s, i)
  {
  }

  lemma PairFine(s: Sys)
    requires Struck(s) && 2 in s.live && 3 in s.live
    ensures RelatedAt(s, 2) && SafeAt(s, 2) && RelatedAt(s, 3) && SafeAt(s, 3)
  {
    StruckAt(s, 2);
    StruckAt(s, 3);
  }

  lemma StruckGood(s: Sys)
    requires Struck(s)
    ensures Good(s) && FreeSlot(s) == NULL && forall i :: i in s.live <==> IsSlot(i)
  {
    CrowdBase(s, Doomed());
    CrowdFree(s, Doomed());
    PairFine(s);
    forall i | i in s.live
      ensures RelatedAt(s, i) && SafeAt(s, i)
    {
      StruckAt(s, i);
      if i != 2 && i != 3 {
        AloneFine(s, i);
      }
    }
  }

  /** The failed connection has been abandoned. */
  ghost predicate Failed(s: Sys, t: Sys) {
    Struck(s) && t == s.(st := s.st[2 := s.st[2].(abandoned := true)][3 := s.st[3].(abandoned := true)])
  }

  /** A stream that hung up is abandoned in its turn. */
  lemma HangupTurn(s: Sys, i: int)
    requires Base(s) && i in s.live && s.st[i].revents.hup && !s.st[i].abandoned
    ensures Visit(s, i, FLOWING) == Outcome(Abandon(s, i), true, NULL)
  {
  }

  lemma AbandonedTurn(s: Sys, i: int)
    requires Base(s) && i in s.live && s.st[i].abandoned
    ensures Visit(s, i, FLOWING) == Outcome(s, true, NULL)
  {
  }

  lemma AbandonBoth(s: Sys, i: int, j: int)
    requires Shape(s) && IsSlot(i) && IsSlot(j) && i != j && s.st[i].neighbour == j
    ensures Abandon(s, i) == s.(st := s.st[j := s.st[j].(abandoned := true)][i := s.st[i].(abandoned := true)])
  {
  }

  lemma FailingTurn(s: Sys) returns (t: Sys)
    requires Struck(s) && Good(s) && 3 in s.live
    ensures Failed(s, t) && Good(t) && Visit(s, 3, FLOWING) == Outcome(t, true, NULL)
  {
    StruckAt(s, 3);
    HangupTurn(s, 3);
    AbandonBoth(s, 3, 2);
    t := Abandon(s, 3);
    VisitGood(s, 3, FLOWING);
  }

  lemma FailedStreams(s: Sys, t: Sys)
    requires Failed(s, t)
    ensures FreeSlot(t) == NULL && |t.st| == POOL_SIZE && (forall i :: i in t.live <==> IsSlot(i))
    ensures Like(t.st[0], DOOR) && t.st[0].revents == IN
    ensures Like(t.st[1], Fed(GreetedClient(1), REQUEST)) && t.st[1].revents == IN && Like(t.st[4], GreetedClient(4))
    ensures t.st[2].neighbour == 3 && t.st[3].neighbour == 2
    ensures forall x :: 0 <= x < POOL_SIZE ==> (t.st[x].abandoned <==> x == 2 || x == 3) && t.st[x].fd == x
    ensures t.os == s.os
  {
    StruckGood(s);
    StruckAt(s, 0);
    StruckAt(s, 1);
    StruckAt(s, 2);
    StruckAt(s, 3);
    StruckAt(s, 4);
    forall x | 0 <= x < POOL_SIZE
      ensures !s.st[x].abandoned && s.st[x].fd == x
    {
      StruckAt(s, x);
      assert FormAt(Doomed(), x);
    }
  }

  lemma FailedVictim(s: Sys, t: Sys)
    requires Failed(s, t) && Shape(t)
    ensures Victim(t, 1) == 2
  {
    FailedStreams(s, t);
    assert AbandonedExcept(t, 1) == {2, 3};
    CrowdLast(s, Doomed(), {2, 3}, 2);
  }

  /** In a full pool a dialling turn evicts and seats the new endpoint in the slot that became free. */
  lemma FullTurn(s: Sys, i: int, e: Env)
    requires Base(s) && i in s.live && FreeSlot(s) == NULL && e.arrivals == [] && Dials(s.st[i], s.os, e)
    ensures Sound(Put(s, i, Read(s.st[i])))
    ensures Visit(s, i, e) == SetupEndpoint(Put(s, i, Read(s.st[i])), i, e)
    ensures Visit(s, i, e).ok && Visit(s, i, e).victim == Victim(s, i)
  {
    ClientVictim(s, i, e);
    CompletingDials(s, i, e);
    assert Visit(s, i, e) == React(s, i, e);
    assert React(s, i, e) == HandleSocks(s, i, e);
  }

  /** `u` is what dialling from `s` leaves: an endpoint for `i` in the slot of `v`. */
  ghost predicate Replaced(s: Sys, i: int, v: int, fd: int, u: Sys) {
    && |s.st| == POOL_SIZE && |u.st| == POOL_SIZE && IsSlot(i) && IsSlot(v)
    && (forall x :: x in s.live ==> x in u.live)
    && u.st[v] == PendingEndpoint(fd, i)
    && (forall x :: IsSlot(x) && x != v && x != i ==> u.st[x] == Left(s, v, x))
    && u.st[i] == Answer(Read(s.st[i]), Pass, GRANT).(neighbour := v) && u.os.epfd == s.os.epfd
    && (forall d :: d in u.os.fds.open ==> d == fd || d in s.os.fds.open)
  }

  /** What the eviction of `v` leaves in another slot. */
  function Left(s: Sys, v: int, x: int): Stream
    requires |s.st| == POOL_SIZE && IsSlot(v) && IsSlot(x)
  {
    if x == s.st[v].neighbour then s.st[x].(abandoned := true) else s.st[x]
  }

  /** `t` is what seating the stream `newcomer` in the place of `v` leaves. */
  ghost predicate Seated(s: Sys, v: int, newcomer: Stream, t: Sys) {
    && |s.st| == POOL_SIZE && |t.st| == POOL_SIZE && IsSlot(v) && t.st[v] == newcomer && t.os.epfd == s.os.epfd
    && (forall x :: IsSlot(x) && x != v ==> t.st[x] == Left(s, v, x))
    && (forall x :: x in s.live ==> x in t.live)
    && (forall d :: d in t.os.fds.open ==> d in s.os.fds.open)
  }

  lemma EvictLeaves(s: Sys, i: int, v: int)
    requires Shape(s) && v == Victim(s, i) != NULL
    ensures var t := Evict(s, i);
      && |t.st| == POOL_SIZE && IsSlot(v)
      && (forall x :: IsSlot(x) && x != v ==> t.st[x] == Left(s, v, x))
      && (forall d :: d in t.os.fds.open ==> d in s.os.fds.open) && t.os.epfd == s.os.epfd
  {
    assert v in s.live;
  }

  lemma SeatLeaves(s: Sys, fd: int, excl: int, v: int, role: Role, level: Level, events: Events)
    requires Sound(s) && FreeSlot(s) == NULL && v == Victim(s, excl)
    ensures var r := Seat(s, fd, excl, role, level, events);
      r.slot == v && v != excl && Seated(s, v, Blank(fd).(role := role, level := level, events := events), r.s)
  {
    EvictionFreesOneSlot(s, excl);
    EvictShape(s, excl);
    EvictLeaves(s, excl, v);
  }

  lemma JoinLeaves(s: Sys, o: Sys, t: Sys, i: int, v: int, fd: int)
    requires |s.st| == POOL_SIZE && IsSlot(i) && i != v
    requires o.live == s.live && o.st == s.st[i := Read(s.st[i])] && o.os.fds.open == s.os.fds.open + {fd}
    requires Seated(o, v, Blank(fd).(role := Endpoint, level := Connecting, events := INOUT), t) && s.st[v].neighbour != i && o.os.epfd == s.os.epfd
    ensures Replaced(s, i, v, fd, Join(t, i, v))
  {
    var u := Join(t, i, v);
    assert t.st[i] == o.st[i];
    forall x | IsSlot(x) && x != v && x != i
      ensures u.st[x] == Left(s, v, x)
    {
      assert t.st[x] == Left(o, v, x);
    }
  }

  /** The state in which the endpoint's descriptor is open and the request has been read. */
  function Asked(s: Sys, i: int, fd: int): Sys
    requires |s.st| == POOL_SIZE && IsSlot(i)
  {
    OpenFd(Put(s, i, Read(s.st[i])), fd)
  }

  lemma AskedSound(s: Sys, i: int, fd: int)
    requires Base(s) && i in s.live && Fresh(s, fd)
    ensures IsSlot(i) && Sound(Asked(s, i, fd)) && Victim(Asked(s, i, fd), i) == Victim(s, i) && FreeSlot(Asked(s, i, fd)) == FreeSlot(s)
    ensures Asked(s, i, fd).live == s.live && Asked(s, i, fd).os.epfd == s.os.epfd && Asked(s, i, fd).os.fds.open == s.os.fds.open + {fd}
  {
    PutBase(s, i, Read(s.st[i]));
    OpenBase(Put(s, i, Read(s.st[i])), fd);
    SameVictim(s, Asked(s, i, fd), i);
  }

  lemma DialIsJoin(s: Sys, i: int, e: Env)
    requires Base(s) && i in s.live && FreeSlot(s) == NULL && e.arrivals == [] && Dials(s.st[i], s.os, e)
    requires IsSlot(i) && Sound(Asked(s, i, e.dialing.fd))
    ensures var seat := Seat(Asked(s, i, e.dialing.fd), e.dialing.fd, i, Endpoint, Connecting, INOUT);
      Visit(s, i, e).s == Join(seat.s, i, seat.slot)
  {
    FullTurn(s, i, e);
  }

  lemma DialLeaves(s: Sys, i: int, e: Env, v: int)
    requires Base(s) && i in s.live && FreeSlot(s) == NULL && e.arrivals == [] && Dials(s.st[i], s.os, e)
    requires v == Victim(s, i) && IsSlot(v) && s.st[v].neighbour != i
    ensures Replaced(s, i, v, e.dialing.fd, Visit(s, i, e).s)
  {
    var fd := e.dialing.fd;
    AskedSound(s, i, fd);
    DialIsJoin(s, i, e);
    var o := Asked(s, i, fd);
    SeatLeaves(o, fd, i, v, Endpoint, Connecting, INOUT);
    JoinLeaves(s, o, Seat(o, fd, i, Endpoint, Connecting, INOUT).s, i, v, fd);
  }

  /** A pool with poll: which slots are free, which streams abandoned, and a bound on descriptors. */
  ghost predicate Pooled(s: Sys, free: set<int>, gone: set<int>, n: int) {
    && Base(s) && s.os.epfd == -1
    && (forall x :: 0 <= x < POOL_SIZE ==> (x in s.live <==> x !in free))
    && (forall x :: 0 <= x < POOL_SIZE && x in s.live ==> (s.st[x].abandoned <==> x in gone) && s.st[x].fd < n)
  }

  /** A client whose request was dialled, with its reply still queued and its endpoint in slot `k`. */
  predicate Awaits(x: Stream, k: int) {
    x.role == Client && x.level == Pass && x.events == OUT && x.neighbour == k
  }

  ghost predicate Torn(u: Sys) {
    && Pooled(u, {}, {3}, POOL_SIZE + 1)
    && Like(u.st[0], DOOR) && u.st[0].revents == IN && u.st[3].neighbour == 2 && u.st[2].neighbour == 1
    && Awaits(u.st[1], 2) && Like(u.st[4], GreetedClient(4))
  }

  lemma TornStreams(s: Sys, t: Sys, u: Sys)
    requires Failed(s, t) && Replaced(t, 1, 2, POOL_SIZE, u) && Base(u)
    ensures Torn(u) && POOL_SIZE + 1 !in u.os.fds.open
  {
    FailedStreams(s, t);
    assert Left(t, 2, 3) == t.st[3] && Left(t, 2, 0) == t.st[0] && Left(t, 2, 4) == t.st[4];
    forall x | 0 <= x < POOL_SIZE
      ensures x in u.live && (u.st[x].abandoned <==> x == 3) && u.st[x].fd <= POOL_SIZE
    {
      assert IsSlot(x);
    }
  }

  lemma TornVictim(u: Sys)
    requires Torn(u)
    ensures FreeSlot(u) == NULL && Victim(u, NULL) == 3
  {
    forall x
      ensures x in AbandonedExcept(u, NULL) <==> x == 3
    {
      assert x in u.live ==> IsSlot(x);
    }
    assert 3 in u.live;
    var f := FreeFrom(u.live, 0, POOL_SIZE);
    assert f != NULL ==> f in u.live;
  }

  lemma StaleThree(u: Sys)
    requires Torn(u)
    ensures Stale(u, 3)
  {
    assert 2 in u.live;
  }

  /** After the request was dialled, slot 3 is stale: it points at the new endpoint. */
  lemma TornSoon(u: Sys)
    requires Torn(u) && POOL_SIZE + 1 !in u.os.fds.open
    ensures TearGuard(u, 0, AcceptOn(POOL_SIZE + 1)) && 0 in u.live && Accepts(u.st[0], u.os, AcceptOn(POOL_SIZE + 1))
  {
    TornVictim(u);
    StaleThree(u);
    assert Arrive(u, []) == u;
  }

  lemma AcceptLeaves(s: Sys, fd: int, v: int)
    requires Base(s) && 0 in s.live && FreeSlot(s) == NULL && v == Victim(s, NULL) && Accepts(s.st[0], s.os, AcceptOn(fd))
    requires Like(s.st[0], DOOR)
    ensures var r := Visit(s, 0, AcceptOn(fd)); r.ok && Seated(OpenFd(s, fd), v, IdleClient(fd), r.s)
  {
    OpenBase(s, fd);
    SameVictim(s, OpenFd(s, fd), NULL);
    SeatLeaves(OpenFd(s, fd), fd, NULL, v, Client, Ver, IN);
    assert Visit(s, 0, AcceptOn(fd)) == React(s, 0, AcceptOn(fd));
    assert React(s, 0, AcceptOn(fd)) == HandleNewStream(s, 0, AcceptOn(fd));
  }

  /** After the tear: the client in slot 1 is in service, its endpoint in slot 2 abandoned. */
  ghost predicate Aftermath(z: Sys) {
    && Pooled(z, {}, {2}, POOL_SIZE + 2)
    && Like(z.st[0], DOOR) && Awaits(z.st[1], 2) && Like(z.st[4], GreetedClient(4))
  }

  lemma TornAccept(u: Sys)
    requires Torn(u) && POOL_SIZE + 1 !in u.os.fds.open && 0 in u.live
    ensures var r := Visit(u, 0, AcceptOn(POOL_SIZE + 1)); r.ok && Aftermath(r.s)
  {
    TornSoon(u);
    TornVictim(u);
    AcceptLeaves(u, POOL_SIZE + 1, 3);
    VisitBase(u, 0, AcceptOn(POOL_SIZE + 1));
    SeatedAftermath(u, OpenFd(u, POOL_SIZE + 1), Visit(u, 0, AcceptOn(POOL_SIZE + 1)).s);
  }

  lemma SeatedAftermath(u: Sys, o: Sys, z: Sys)
    requires Torn(u) && Base(z) && o.live == u.live && o.st == u.st && o.os.epfd == u.os.epfd
    requires Seated(o, 3, IdleClient(POOL_SIZE + 1), z)
    ensures Aftermath(z)
  {
    assert Left(o, 3, 0) == u.st[0] && Left(o, 3, 1) == u.st[1] && Left(o, 3, 4) == u.st[4];
    forall x | 0 <= x < POOL_SIZE
      ensures x in z.live && (z.st[x].abandoned <==> x == 2) && z.st[x].fd < POOL_SIZE + 2
    {
      assert IsSlot(x) && x in u.live;
      if x != 3 {
        assert z.st[x] == Left(o, 3, x);
      }
    }
  }

  /** The walk took a stale stream and ended well, with the pair torn. */
  ghost predicate Tears(w: WalkResult) {
    w.stale && w.ok && Aftermath(w.s)
  }

  lemma TearsBefore(s: Sys, i: int, next: int, e: Env, visits: seq<Env>)
    requires Base(s) && i in s.live && next == NextOf(s.live, i) && Visit(s, i, e).ok
    requires Base(Visit(s, i, e).s) && (next == NULL || next in Visit(s, i, e).s.live)
    requires Tears(Walk(Visit(s, i, e).s, next, visits))
    ensures Tears(Walk(s, i, [e] + visits))
  {
    assert ([e] + visits)[1..] == visits;
    WalkTurn(s, i, [e] + visits);
  }

  lemma TornWalk(u: Sys) returns (visits: seq<Env>)
    requires Torn(u) && Good(u) && POOL_SIZE + 1 !in u.os.fds.open && 0 in u.live
    ensures Tears(Walk(u, 0, visits))
  {
    var e := AcceptOn(POOL_SIZE + 1);
    visits := [e];
    TornSoon(u);
    TornAccept(u);
    ListenerLast(u, 0);
    StaleVictimExactlyWhen(u, 0, e);
    WalkTurn(u, 0, visits);
  }

  lemma DialsAtOne(s: Sys, t: Sys)
    requires Failed(s, t) && Good(t)
    ensures 1 in t.live && FreeSlot(t) == NULL && Dials(t.st[1], t.os, DialOn(POOL_SIZE)) && Victim(t, 1) == 2
    ensures t.st[2].neighbour == 3 && !Stale(t, 2)
  {
    FailedStreams(s, t);
    FailedVictim(s, t);
    RequestRead(t.st[1]);
  }

  /** The last two turns: the request is dialled, and the newcomer evicts the stale stream. */
  lemma TornFromOne(s: Sys, t: Sys) returns (visits: seq<Env>)
    requires Failed(s, t) && Good(t)
    ensures 1 in t.live && Tears(Walk(t, 1, visits))
  {
    var e := DialOn(POOL_SIZE);
    DialsAtOne(s, t);
    DialLeaves(t, 1, e, 2);
    FullTurn(t, 1, e);
    VisitGood(t, 1, e);
    var u := Visit(t, 1, e).s;
    TornStreams(s, t, u);
    assert 0 in u.live;
    var rest := TornWalk(u);
    CrowdNext(s, Doomed(), 1);
    TearsBefore(t, 1, 0, e, rest);
    visits := [e] + rest;
  }

  lemma TornFromTwo(s: Sys, t: Sys) returns (visits: seq<Env>)
    requires Failed(s, t) && Good(t)
    ensures 2 in t.live && Tears(Walk(t, 2, visits))
  {
    var rest := TornFromOne(s, t);
    FailedStreams(s, t);
    AbandonedTurn(t, 2);
    CrowdNext(s, Doomed(), 2);
    TearsBefore(t, 2, 1, FLOWING, rest);
    visits := [FLOWING] + rest;
  }

  lemma TornFromThree(s: Sys) returns (visits: seq<Env>)
    requires Struck(s) && Good(s) && 3 in s.live
    ensures Tears(Walk(s, 3, visits))
  {
    var t := FailingTurn(s);
    var rest := TornFromTwo(s, t);
    CrowdNext(s, Doomed(), 3);
    TearsBefore(s, 3, 2, FLOWING, rest);
    visits := [FLOWING] + rest;
  }

  lemma StruckQuiet(s: Sys)
    requires Struck(s) && Shape(s)
    ensures QuietBefore(s, 3)
  {
    forall x | x in s.live && s.stamp[x] > s.stamp[3]
      ensures !s.st[x].revents.Any()
    {
      CrowdLive(s, Doomed(), x);
      assert SeatedAt(s, Doomed(), x) && SeatedAt(s, Doomed(), 3);
    }
  }

  lemma TornFromHead(s: Sys) returns (visits: seq<Env>)
    requires Struck(s)
    ensures Good(s) && Tears(Walk(s, Head(s), visits))
  {
    StruckGood(s);
    StruckQuiet(s);
    FromHead(s);
    var rest := TornFromThree(s);
    visits := IdleUntil(s, Head(s), 3, rest);
  }

  /** The fatal cycle. */
  lemma Tearing(s: Sys) returns (c: CycleEnv)
    requires Crowd(s, Gathered())
    ensures Base(s) && !Calm(Cycle(s, c)) && Cycle(s, c).ok && Aftermath(Cycle(s, c).s)
  {
    var w, t := StrikingWait(s);
    var visits := TornFromHead(t);
    c := CycleEnv(w, visits);
  }

  /**
   * There is a life of the proxy with a cycle in which an eviction takes a stale stream, so that the
   * pairs do not stay related and safe.
   */
  lemma TearHappens() returns (epfd: int, listen: Dialing, cs: seq<CycleEnv>, r: CycleResult)
    ensures Boot(epfd, listen).1 && Base(Boot(epfd, listen).0)
    ensures var run := Run(Boot(epfd, listen).0, cs); r in run.cycles && !AllCalm(run) && !AllGood(run)
    ensures !Calm(r)
  {
    epfd, listen := -1, Pending(0);
    var first, s := Gathering();
    var c := Tearing(s);
    RunOn(Boot(epfd, listen).0, first, [c]);
    FirstCycle(s, [c]);
    cs, r := first + [c], Cycle(s, c);
    BootGood(epfd, listen);
    RunGood(Boot(epfd, listen).0, cs);
  }
}
