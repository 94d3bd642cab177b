/**
 * What a turn does, case by case (src/proxy.c:10-411, src/util.c:337-439, 907-971, 1186-1197): for each
 * role and stage, which events and which answers of the kernel lead to which state.  The cases cover every
 * turn; octets, events and limits are written out.
 */
module Turns {
  import opened Bytes
  import opened PollEvents
  import opened LiveLists
  import opened Socks
  import opened Streams
  import opened Handlers
  import opened BaseInvariant

  /** In service, with something to read or write, and no error reported. */
  predicate Served(x: Stream) {
    !x.abandoned && (x.revents.rd || x.revents.wr) && !x.revents.err && !x.revents.hup
  }

  /** It forwards, to the stream `neighbour` points at. */
  predicate Coupled(x: Stream) {
    x.level == Forwarding && x.neighbour != NULL
  }

  /** Only the stream in slot `i` is another one. */
  predicate OnlyChanged(a: Sys, t: Sys, i: int, x: Stream)
    requires |a.st| == POOL_SIZE && IsSlot(i)
  {
    t == a.(st := a.st[i := x])
  }

  /** The list, the interest list and the set of open descriptors are the same. */
  predicate SameOutside(a: Sys, t: Sys) {
    && t.live == a.live && t.stamp == a.stamp && t.clock == a.clock && t.evictions == a.evictions
    && t.os.epfd == a.os.epfd && t.os.kernel == a.os.kernel && t.os.fds.open == a.os.fds.open
  }

  /**
   * The stream in slot `i`, which may have been read, is to be removed, and so is the one its `neighbour`
   * points at; all other streams are as they were.
   */
  ghost predicate Dropped(a: Sys, t: Sys, i: int) {
    && |a.st| == POOL_SIZE && |t.st| == POOL_SIZE && IsSlot(i) && SameOutside(a, t)
    && t.st[i] == a.st[i].(abandoned := true, queue := t.st[i].queue, sock := t.st[i].sock)
    && forall x :: 0 <= x < POOL_SIZE && x != i ==>
         t.st[x] == if x == a.st[i].neighbour then a.st[x].(abandoned := true) else a.st[x]
  }

  lemma AbandonDrops(a: Sys, i: int, x: Stream)
    requires Shape(a) && IsSlot(i) && x == a.st[i].(queue := x.queue, sock := x.sock) && Shape(Put(a, i, x))
    ensures Dropped(a, Abandon(Put(a, i, x), i), i)
  {
  }

  lemma AbandonJustDrops(a: Sys, i: int)
    requires Shape(a) && IsSlot(i)
    ensures Dropped(a, Abandon(a, i), i)
  {
  }

  /** What the loop does for the stream itself, after the arrivals. */
  lemma VisitReacts(s: Sys, i: int, e: Env)
    requires Base(s) && i in s.live
    ensures var a := Arrive(s, e.arrivals);
      && Base(a) && a.live == s.live && IsSlot(i) && Visit(s, i, e) == React(a, i, e)
      && a.st[i] == s.st[i].(sock := a.st[i].sock)
  {
    ArriveSound(s, e.arrivals);
    SoftBase(s, Arrive(s, e.arrivals), {});
    assert IsSlot(i);
  }

  lemma ServedReacts(a: Sys, i: int, e: Env)
    requires Sound(a) && i in a.live && Served(a.st[i])
    ensures React(a, i, e) == HandleEvents(a, i, e)
  {
  }

  // ---------------------------------------------------------------------------------------------
  // Nothing to do, and errors
  // ---------------------------------------------------------------------------------------------

  /** A stream to be removed, or without events, is passed over. */
  lemma PassedOver(s: Sys, i: int, e: Env)
    requires Base(s) && i in s.live
    requires s.st[i].abandoned || s.st[i].revents == Events(false, false, false, false)
    ensures Visit(s, i, e) == Outcome(Arrive(s, e.arrivals), true, NULL)
  {
    VisitReacts(s, i, e);
  }

  /** POLLERR and POLLHUP, each alone or with anything else, drop a stream and its partner. */
  lemma ErrorDrops(s: Sys, i: int, e: Env)
    requires Base(s) && i in s.live && !s.st[i].abandoned && (s.st[i].revents.err || s.st[i].revents.hup)
    ensures var r := Visit(s, i, e); r.ok && r.victim == NULL && Dropped(Arrive(s, e.arrivals), r.s, i)
  {
    VisitReacts(s, i, e);
    AbandonJustDrops(Arrive(s, e.arrivals), i);
  }

  // ---------------------------------------------------------------------------------------------
  // New streams
  // ---------------------------------------------------------------------------------------------

  /**
   * `v` is who must make room: the oldest of the streams to be removed if there are any but `excl`, else
   * the oldest of the clients and endpoints but `excl`.
   */
  ghost predicate MakesRoom(a: Sys, v: int, excl: int)
    requires Shape(a)
  {
    && v in a.live && v != excl
    && (a.st[v].abandoned || a.st[v].role == Client || a.st[v].role == Endpoint)
    && (forall x :: x in a.live && x != excl && a.st[x].abandoned ==> a.st[v].abandoned && a.stamp[v] <= a.stamp[x])
    && (!a.st[v].abandoned ==>
          forall x :: x in a.live && x != excl && (a.st[x].role == Client || a.st[x].role == Endpoint) ==> a.stamp[v] <= a.stamp[x])
  }

  /**
   * A stream came in slot `k`, in front of the list: the lowest free one; or, when there is none, that
   * of the stream that must make room, which is closed, its partner being to be removed.
   */
  ghost predicate Placed(a: Sys, t: Sys, k: int, victim: int, fd: int, excl: int)
    requires Shape(a)
  {
    && |t.st| == POOL_SIZE && |t.stamp| == POOL_SIZE && 0 <= k < 256
    && t.stamp == a.stamp[k := a.clock] && t.clock == a.clock + 1
    && if victim == NULL then
         && k !in a.live && (forall x :: 0 <= x < k ==> x in a.live)
         && t.live == [k] + a.live && t.os.fds.open == a.os.fds.open + {fd}
       else
         && (forall x :: 0 <= x < 256 ==> x in a.live) && k == victim && MakesRoom(a, k, excl)
         && t.live == [k] + Sieve(a.live, {k}) && t.os.fds.open == a.os.fds.open - {a.st[k].fd} + {fd}
  }

  /** What is left in another slot when a stream came in slot `k`. */
  function Remains(a: Sys, k: int, victim: int, x: int): Stream
    requires |a.st| == POOL_SIZE && IsSlot(x) && IsSlot(k)
  {
    if victim != NULL && x == a.st[k].neighbour then a.st[x].(abandoned := true) else a.st[x]
  }

  lemma SeatPlaces(a: Sys, fd: int, excl: int, role: Role, level: Level, events: Events)
    requires Base(a) && Fresh(a, fd)
    ensures Sound(OpenFd(a, fd))
    ensures var r := Seat(OpenFd(a, fd), fd, excl, role, level, events);
      && Placed(a, r.s, r.slot, r.victim, fd, excl)
      && r.s.st[r.slot] == Blank(fd).(role := role, level := level, events := events)
      && forall x :: 0 <= x < POOL_SIZE && x != r.slot ==> r.s.st[x] == Remains(a, r.slot, r.victim, x)
  {
    OpenBase(a, fd);
    var o := OpenFd(a, fd);
    if FreeSlot(o) == NULL {
      EvictionPlaces(a, o, fd, excl, role, level, events);
    }
  }

  lemma EvictionPlaces(a: Sys, o: Sys, fd: int, excl: int, role: Role, level: Level, events: Events)
    requires Base(a) && Fresh(a, fd) && o == OpenFd(a, fd) && Sound(o) && FreeSlot(o) == NULL
    ensures var r := Seat(o, fd, excl, role, level, events);
      && Placed(a, r.s, r.slot, r.victim, fd, excl)
      && r.s.st[r.slot] == Blank(fd).(role := role, level := level, events := events)
      && forall x :: 0 <= x < POOL_SIZE && x != r.slot ==> r.s.st[x] == Remains(a, r.slot, r.victim, x)
  {
    EvictionFreesOneSlot(o, excl);
    EvictShape(o, excl);
    var v := Victim(o, excl);
    VictimMakesRoom(o, excl);
    assert MakesRoom(a, v, excl);
    EvictedFd(a, o, fd, v);
    EvictedOthers(o, excl);
    AdmittedAfter(a, o, Evict(o, excl), v, fd, excl, role, level, events);
  }

  lemma AdmittedAfter(a: Sys, o: Sys, t: Sys, v: int, fd: int, excl: int, role: Role, level: Level, events: Events)
    requires Shape(a) && Shape(t) && FreeSlot(t) == v != NULL && IsSlot(v) && o.st == a.st && o.live == a.live && FreeSlot(o) == NULL
    requires MakesRoom(a, v, excl) && t.live == Sieve(a.live, {v}) && t.stamp == a.stamp && t.clock == a.clock
    requires t.os.fds.open == a.os.fds.open - {a.st[v].fd} + {fd}
    requires forall x :: 0 <= x < POOL_SIZE && x != v ==> t.st[x] == Remains(a, v, v, x)
    ensures var u := Admit(t, fd, role, level, events);
      && Placed(a, u, v, v, fd, excl)
      && u.st[v] == Blank(fd).(role := role, level := level, events := events)
      && forall x :: 0 <= x < POOL_SIZE && x != v ==> u.st[x] == Remains(a, v, v, x)
  {
  }

  lemma VictimMakesRoom(a: Sys, excl: int)
    requires Sound(a) && Victim(a, excl) != NULL
    ensures MakesRoom(a, Victim(a, excl), excl)
  {
    VictimIsOldest(a, excl);
  }

  lemma EvictedFd(a: Sys, o: Sys, fd: int, v: int)
    requires Base(a) && Fresh(a, fd) && o == OpenFd(a, fd) && v in a.live
    ensures a.os.fds.open + {fd} - {a.st[v].fd} == a.os.fds.open - {a.st[v].fd} + {fd}
  {
    assert a.st[v].fd in LiveFds(a);
  }

  lemma EvictedOthers(o: Sys, excl: int)
    requires Sound(o) && Victim(o, excl) != NULL && Victim(o, excl) in o.live
    ensures var t := Evict(o, excl);
      && |t.st| == POOL_SIZE && IsSlot(Victim(o, excl)) && t.stamp == o.stamp && t.clock == o.clock
      && t.os.fds.open == o.os.fds.open - {o.st[Victim(o, excl)].fd}
      && forall x :: 0 <= x < POOL_SIZE && x != Victim(o, excl) ==> t.st[x] == Remains(o, Victim(o, excl), Victim(o, excl), x)
  {
  }

  /** A client as it comes in. */
  function Newcomer(fd: int): Stream {
    Stream(Client, fd, Ver, false, Events(true, false, false, false), NONE, NONE, Unwatched, NULL, [], Sock([], [], [], [], [], []), false)
  }

  /**
   * The listener: a readable one accepts.  That fails severely when no socket can be had or made
   * non-blocking; the latter is closed again.  Otherwise one client comes, in front of the list.
   */
  lemma ListenerTurn(s: Sys, i: int, e: Env)
    requires Base(s) && i in s.live && s.st[i].role == Listener && Served(s.st[i]) && !Coupled(s.st[i])
    ensures var r, a := Visit(s, i, e), Arrive(s, e.arrivals);
      Shape(a) &&
      if !s.st[i].revents.rd then r == Outcome(a, true, NULL)
      else if e.accepted < 0 || e.accepted in s.os.fds.open then r == Outcome(a, false, NULL)
      else if !e.nonblocking then
        !r.ok && r.victim == NULL && r.s.live == a.live && r.s.st == a.st && r.s.os.fds.open == a.os.fds.open
      else
        && r.ok && r.s.live != [] && Placed(a, r.s, r.s.live[0], r.victim, e.accepted, NULL)
        && r.s.st[r.s.live[0]] == Newcomer(e.accepted)
        && forall x :: 0 <= x < POOL_SIZE && x != r.s.live[0] ==> r.s.st[x] == Remains(a, r.s.live[0], r.victim, x)
  {
    VisitReacts(s, i, e);
    var a := Arrive(s, e.arrivals);
    ServedReacts(a, i, e);
    ArriveSound(s, e.arrivals);
    assert HandleEvents(a, i, e) == HandleNewStream(a, i, e);
    if Fresh(a, e.accepted) {
      SeatPlaces(a, e.accepted, NULL, Client, Ver, IN);
      OpenThenClose(a, e.accepted);
    }
  }

  lemma OpenThenClose(a: Sys, fd: int)
    requires Fresh(a, fd)
    ensures CloseFd(OpenFd(a, fd), fd).os.fds.open == a.os.fds.open
  {
  }

  // ---------------------------------------------------------------------------------------------
  // The handshake
  // ---------------------------------------------------------------------------------------------

  /** A client whose turn is one of the handshake: it neither forwards nor has part of a reply to send. */
  predicate Talks(x: Stream) {
    x.role == Client && Served(x) && !Coupled(x) && !(x.queue != [] && x.revents.wr)
  }

  /** What one recv yields: up to 384 octets. */
  function Got(x: Stream): seq<byte> {
    if |x.sock.unread| <= 384 then x.sock.unread else x.sock.unread[..384]
  }

  /** Two octets or more that fit the queue. */
  predicate Usable(x: Stream) {
    x.revents.rd && |Got(x)| >= 2 && |x.queue| + |Got(x)| <= 384
  }

  /** The client with what it got added to its queue. */
  function Gathered(x: Stream): Stream {
    x.(queue := x.queue + Got(x), sock := x.sock.(unread := x.sock.unread[|Got(x)|..], heard := x.sock.heard + Got(x)))
  }

  /** The client at another stage, with these octets to be sent to it in place of what it sent. */
  function Replied(x: Stream, level: Level, bytes: seq<byte>): Stream {
    x.(level := level, queue := bytes, events := Events(false, true, false, false),
       sock := x.sock.(unread := x.sock.unread[|Got(x)|..], heard := []))
  }

  lemma GotIsChunk(x: Stream)
    ensures Chunk(x) == Got(x) && (Usable(x) ==> Read(x) == Gathered(x))
  {
    assert x.sock.unread[..|x.sock.unread|] == x.sock.unread;
  }

  lemma TalksReacts(a: Sys, i: int, e: Env)
    requires Sound(a) && i in a.live && IsSlot(i) && Talks(a.st[i])
    ensures React(a, i, e) == HandleSocks(a, i, e)
  {
    ServedReacts(a, i, e);
    assert HandleEvents(a, i, e) == ByRole(a, i, e);
  }

  lemma HangDrops(a: Sys, i: int, e: Env)
    requires Base(a) && i in a.live && IsSlot(i) && Talks(a.st[i])
    requires !a.st[i].revents.rd || Receive(a.st[i].level, a.st[i].queue, Chunk(a.st[i])) == Hang
    ensures var r := React(a, i, e); r.ok && r.victim == NULL && Dropped(a, r.s, i)
  {
    TalksReacts(a, i, e);
    PutBase(a, i, Read(a.st[i]));
    AbandonJustDrops(a, i);
    AbandonDrops(a, i, Read(a.st[i]));
  }

  /** A client that is not readable, or whose chunk is short or does not fit, is dropped. */
  lemma UnusableTurn(s: Sys, i: int, e: Env)
    requires Base(s) && i in s.live && Talks(s.st[i]) && !Usable(Arrive(s, e.arrivals).st[i])
    ensures var r := Visit(s, i, e); r.ok && r.victim == NULL && Dropped(Arrive(s, e.arrivals), r.s, i)
  {
    VisitReacts(s, i, e);
    GotIsChunk(Arrive(s, e.arrivals).st[i]);
    HangDrops(Arrive(s, e.arrivals), i, e);
  }

  lemma ReplyTurn(a: Sys, i: int, e: Env, level: Level, bytes: seq<byte>)
    requires Base(a) && i in a.live && IsSlot(i) && Talks(a.st[i]) && Usable(a.st[i])
    requires Receive(a.st[i].level, a.st[i].queue, Chunk(a.st[i])) == Reply(level, bytes)
    ensures var r := React(a, i, e);
      r.ok && r.victim == NULL && OnlyChanged(a, r.s, i, Replied(a.st[i], level, bytes))
  {
    TalksReacts(a, i, e);
    GotIsChunk(a.st[i]);
    PutBase(a, i, Read(a.st[i]));
    var x := Answer(Read(a.st[i]), level, bytes);
    assert x == Replied(a.st[i], level, bytes);
    assert a.st[i := Read(a.st[i])][i := x] == a.st[i := x];
  }

  /**
   * The first chunk.  Another version than 5 drops the client.  One that begins 5,1,2, offering nothing
   * but user name and password, is answered 5,2; any other 5,0.
   */
  lemma GreetingTurn(s: Sys, i: int, e: Env)
    requires Base(s) && i in s.live && Talks(s.st[i]) && s.st[i].level == Ver && Usable(Arrive(s, e.arrivals).st[i])
    ensures var r, a := Visit(s, i, e), Arrive(s, e.arrivals);
      && |a.st| == POOL_SIZE && IsSlot(i) && r.ok && r.victim == NULL
      && var q := a.st[i].queue + Got(a.st[i]);
         if q[0] != 5 then Dropped(a, r.s, i)
         else if |Got(a.st[i])| >= 3 && q[1] == 1 && q[2] == 2 then OnlyChanged(a, r.s, i, Replied(a.st[i], Auth, [5, 2]))
         else OnlyChanged(a, r.s, i, Replied(a.st[i], Req, [5, 0]))
  {
    VisitReacts(s, i, e);
    var a := Arrive(s, e.arrivals);
    var me := a.st[i];
    GotIsChunk(me);
    var q := me.queue + Got(me);
    if q[0] != 5 {
      HangDrops(a, i, e);
    } else if |Got(me)| >= 3 && q[1] == 1 && q[2] == 2 {
      ReplyTurn(a, i, e, Auth, [5, 2]);
    } else {
      ReplyTurn(a, i, e, Req, [5, 0]);
    }
  }

  /** Whatever is sent for user name and password is answered 5,0. */
  lemma CredentialsTurn(s: Sys, i: int, e: Env)
    requires Base(s) && i in s.live && Talks(s.st[i]) && s.st[i].level == Auth && Usable(Arrive(s, e.arrivals).st[i])
    ensures var r, a := Visit(s, i, e), Arrive(s, e.arrivals);
      && |a.st| == POOL_SIZE && IsSlot(i) && r.ok && r.victim == NULL
      && OnlyChanged(a, r.s, i, Replied(a.st[i], Req, [5, 0]))
  {
    VisitReacts(s, i, e);
    var a := Arrive(s, e.arrivals);
    GotIsChunk(a.st[i]);
    ReplyTurn(a, i, e, Req, [5, 0]);
  }

  /** What has been gathered is the proper beginning of some request, or too short to tell. */
  ghost predicate Unfinished(q: seq<byte>) {
    |q| < 4 || exists r :: WellFormed(r) && q < EncodeRequest(r)
  }

  /** A request not yet complete is gathered, and one that cannot be completed drops the client. */
  lemma RequestTurn(s: Sys, i: int, e: Env)
    requires Base(s) && i in s.live && Talks(s.st[i]) && s.st[i].level == Req && Usable(Arrive(s, e.arrivals).st[i])
    requires var x := Arrive(s, e.arrivals).st[i];
      forall r :: WellFormed(r) ==> !(EncodeRequest(r) <= x.queue + Got(x))
    ensures var r, a := Visit(s, i, e), Arrive(s, e.arrivals);
      && |a.st| == POOL_SIZE && IsSlot(i) && r.ok && r.victim == NULL
      && if Unfinished(a.st[i].queue + Got(a.st[i])) then OnlyChanged(a, r.s, i, Gathered(a.st[i])) else Dropped(a, r.s, i)
  {
    VisitReacts(s, i, e);
    RequestReacts(Arrive(s, e.arrivals), i, e);
  }

  lemma RequestReacts(a: Sys, i: int, e: Env)
    requires Base(a) && i in a.live && IsSlot(i) && Talks(a.st[i]) && a.st[i].level == Req && Usable(a.st[i])
    requires forall r :: WellFormed(r) ==> !(EncodeRequest(r) <= a.st[i].queue + Got(a.st[i]))
    ensures var r := React(a, i, e);
      && r.ok && r.victim == NULL
      && if Unfinished(a.st[i].queue + Got(a.st[i])) then OnlyChanged(a, r.s, i, Gathered(a.st[i])) else Dropped(a, r.s, i)
  {
    var q := a.st[i].queue + Got(a.st[i]);
    GotIsChunk(a.st[i]);
    Incomplete(q);
    if ParseRequest(q) == More {
      GatherTurn(a, i, e, q);
    } else {
      HangDrops(a, i, e);
    }
  }

  lemma GatherTurn(a: Sys, i: int, e: Env, q: seq<byte>)
    requires Base(a) && i in a.live && IsSlot(i) && Talks(a.st[i]) && a.st[i].level == Req && Usable(a.st[i])
    requires q == a.st[i].queue + Got(a.st[i]) && ParseRequest(q) == More
    ensures var r := React(a, i, e); r.ok && r.victim == NULL && OnlyChanged(a, r.s, i, Gathered(a.st[i]))
  {
    TalksReacts(a, i, e);
    GotIsChunk(a.st[i]);
    PutBase(a, i, Read(a.st[i]));
  }

  /** Without a request at its start, octets are waited on exactly when they may become one. */
  lemma Incomplete(q: seq<byte>)
    requires forall r :: WellFormed(r) ==> !(EncodeRequest(r) <= q)
    ensures ParseRequest(q) == if Unfinished(q) then More else Reject
  {
    MoreExactlyWhen(q);
    if ParseRequest(q).Connect? {
      ParseMeansEncoded(q, ParseRequest(q).request);
    }
  }

  /** Clients at another stage are not to send anything. */
  lemma UnexpectedTurn(s: Sys, i: int, e: Env)
    requires Base(s) && i in s.live && Talks(s.st[i]) && s.st[i].level !in {Ver, Auth, Req}
    ensures var r := Visit(s, i, e); r.ok && r.victim == NULL && Dropped(Arrive(s, e.arrivals), r.s, i)
  {
    VisitReacts(s, i, e);
    HangDrops(Arrive(s, e.arrivals), i, e);
  }

  // ---------------------------------------------------------------------------------------------
  // Dialling
  // ---------------------------------------------------------------------------------------------

  /** What the client has sent begins with this request. */
  predicate Asks(x: Stream, r: Request) {
    x.level == Req && Talks(x) && Usable(x) && WellFormed(r) && EncodeRequest(r) <= x.queue + Got(x)
  }

  lemma AskingDials(x: Stream, r: Request)
    requires Asks(x, r)
    ensures Read(x) == Gathered(x) && Receive(x.level, x.queue, Chunk(x)) == Reaction.Dial(r)
  {
    GotIsChunk(x);
    ParseMeansEncoded(x.queue + Got(x), r);
  }

  lemma AskingReacts(a: Sys, i: int, e: Env, r: Request)
    requires Base(a) && i in a.live && IsSlot(i) && Asks(a.st[i], r)
    ensures Base(Put(a, i, Gathered(a.st[i]))) && Read(a.st[i]) == Gathered(a.st[i])
    ensures React(a, i, e) == Respond(Put(a, i, Gathered(a.st[i])), i, Reaction.Dial(r), e)
  {
    TalksReacts(a, i, e);
    AskingDials(a.st[i], r);
    PutBase(a, i, Read(a.st[i]));
  }

  /** A host name that is not resolved drops the client. */
  lemma UnresolvedTurn(s: Sys, i: int, e: Env, r: Request)
    requires Base(s) && i in s.live && Asks(Arrive(s, e.arrivals).st[i], r) && r.Host? && !e.resolved
    ensures var v := Visit(s, i, e); v.ok && v.victim == NULL && Dropped(Arrive(s, e.arrivals), v.s, i)
  {
    VisitReacts(s, i, e);
    var a := Arrive(s, e.arrivals);
    AskingReacts(a, i, e, r);
    AbandonDrops(a, i, Gathered(a.st[i]));
  }

  /** Without a socket the whole proxy gives up. */
  lemma NoSocketTurn(s: Sys, i: int, e: Env, r: Request)
    requires Base(s) && i in s.live && Asks(Arrive(s, e.arrivals).st[i], r) && (r.Host? ==> e.resolved)
    requires e.dialing == NoSocket || e.dialing.fd < 0 || e.dialing.fd in s.os.fds.open
    ensures var v, a := Visit(s, i, e), Arrive(s, e.arrivals);
      !v.ok && v.victim == NULL && |a.st| == POOL_SIZE && IsSlot(i) && OnlyChanged(a, v.s, i, Gathered(a.st[i]))
  {
    VisitReacts(s, i, e);
    ArriveSound(s, e.arrivals);
    AskingReacts(Arrive(s, e.arrivals), i, e, r);
  }

  /**
   * A connection that fails at once drops the client and nobody else, and its socket is closed again: the
   * proxy goes on.
   */
  lemma RefusedTurn(s: Sys, i: int, e: Env, r: Request)
    requires Base(s) && i in s.live && Asks(Arrive(s, e.arrivals).st[i], r) && (r.Host? ==> e.resolved)
    requires e.dialing.Refused? && e.dialing.fd >= 0 && e.dialing.fd !in s.os.fds.open
    ensures var v := Visit(s, i, e); v.ok && v.victim == NULL && Dropped(Arrive(s, e.arrivals), v.s, i)
  {
    VisitReacts(s, i, e);
    ArriveSound(s, e.arrivals);
    var a := Arrive(s, e.arrivals);
    AskingReacts(a, i, e, r);
    var o := Put(a, i, Gathered(a.st[i]));
    OpenThenClose(o, e.dialing.fd);
    OpenBase(o, e.dialing.fd);
    RefusedDrops(a, o, i, e.dialing.fd);
  }

  lemma RefusedDrops(a: Sys, o: Sys, i: int, fd: int)
    requires Shape(a) && IsSlot(i) && o == Put(a, i, Gathered(a.st[i])) && Shape(CloseFd(OpenFd(o, fd), fd))
    requires CloseFd(OpenFd(o, fd), fd).os.fds.open == a.os.fds.open
    ensures Dropped(a, Abandon(CloseFd(OpenFd(o, fd), fd), i), i)
  {
  }

  /** An endpoint as it is seated for the client in slot `i`. */
  function NewEndpoint(fd: int, i: int): Stream {
    Stream(Endpoint, fd, Connecting, false, Events(true, true, false, false), NONE, NONE, Unwatched, i, [], Sock([], [], [], [], [], []), false)
  }

  /**
   * A pending connection: an endpoint comes, in front of the list, that points at the client; the client
   * points at it and has ten octets to be sent, and goes on to the next stage.
   */
  lemma PendingTurn(s: Sys, i: int, e: Env, r: Request)
    requires Base(s) && i in s.live && Asks(Arrive(s, e.arrivals).st[i], r) && (r.Host? ==> e.resolved)
    requires e.dialing.Pending? && e.dialing.fd >= 0 && e.dialing.fd !in s.os.fds.open
    ensures var v, a := Visit(s, i, e), Arrive(s, e.arrivals); Shape(a) && v.ok && Dialled(a, v, i, e.dialing.fd)
  {
    VisitReacts(s, i, e);
    ArriveSound(s, e.arrivals);
    var a := Arrive(s, e.arrivals);
    AskingReacts(a, i, e, r);
    SetupDials(a, Put(a, i, Gathered(a.st[i])), i, e);
  }

  ghost predicate Dialled(a: Sys, v: Outcome, i: int, fd: int)
    requires Shape(a)
  {
    && IsSlot(i) && v.s.live != [] && |v.s.st| == POOL_SIZE
    && var k := v.s.live[0];
       && Placed(a, v.s, k, v.victim, fd, i) && k != i && v.s.st[k] == NewEndpoint(fd, i)
       && v.s.st[i] == Replied(Remains(a, k, v.victim, i), Pass, [5, 0, 0, 1, 0, 0, 0, 0, 0, 0]).(neighbour := k)
       && forall x :: 0 <= x < POOL_SIZE && x != k && x != i ==> v.s.st[x] == Remains(a, k, v.victim, x)
  }

  lemma SetupDials(a: Sys, o: Sys, i: int, e: Env)
    requires Base(a) && Base(o) && i in a.live && IsSlot(i) && o == Put(a, i, Gathered(a.st[i])) && a.st[i].role == Client
    requires e.dialing.Pending? && Fresh(a, e.dialing.fd)
    ensures var v := SetupEndpoint(o, i, e); v.ok && Dialled(a, v, i, e.dialing.fd)
  {
    var fd := e.dialing.fd;
    SeatPlaces(o, fd, i, Endpoint, Connecting, INOUT);
    SeatSpares(OpenFd(o, fd), fd, i, Endpoint, Connecting, INOUT);
    var seat := Seat(OpenFd(o, fd), fd, i, Endpoint, Connecting, INOUT);
    PlacedAlike(a, o, i, seat.s, seat.slot, seat.victim, fd);
    JoinedAlike(a, o, i, seat.s, seat.slot, seat.victim, fd);
  }

  lemma JoinedAlike(a: Sys, o: Sys, i: int, t: Sys, k: int, victim: int, fd: int)
    requires Shape(a) && Shape(o) && IsSlot(i) && o == Put(a, i, Gathered(a.st[i])) && k != i && Placed(o, t, k, victim, fd, i)
    requires t.st[k] == Blank(fd).(role := Endpoint, level := Connecting, events := INOUT)
    requires forall x :: 0 <= x < POOL_SIZE && x != k ==> t.st[x] == Remains(o, k, victim, x)
    ensures var u := Join(t, i, k);
      && |u.st| == POOL_SIZE && u.st[k] == NewEndpoint(fd, i)
      && u.st[i] == Replied(Remains(a, k, victim, i), Pass, [5, 0, 0, 1, 0, 0, 0, 0, 0, 0]).(neighbour := k)
      && forall x :: 0 <= x < POOL_SIZE && x != k && x != i ==> u.st[x] == Remains(a, k, victim, x)
  {
    assert t.st[i] == Remains(o, k, victim, i);
  }

  lemma PlacedAlike(a: Sys, o: Sys, i: int, t: Sys, k: int, victim: int, fd: int)
    requires Shape(a) && Shape(o) && IsSlot(i) && o == Put(a, i, Gathered(a.st[i])) && k != i && Placed(o, t, k, victim, fd, i)
    ensures Placed(a, Join(t, i, k), k, victim, fd, i)
  {
    if victim != NULL {
      assert MakesRoom(o, k, i);
      assert MakesRoom(a, k, i);
    }
  }

  // ---------------------------------------------------------------------------------------------
  // Replies
  // ---------------------------------------------------------------------------------------------

  /** A client that part of a reply can be sent to, and that does not forward. */
  predicate Hears(x: Stream) {
    x.role == Client && Served(x) && !Coupled(x) && x.queue != [] && x.revents.wr
  }

  /** How many of `n` octets send takes. */
  function TakenOf(e: Env, n: nat): (m: int)
    ensures m <= n && (e.taken >= 0 ==> m >= 0)
  {
    if e.taken < n then e.taken else n
  }

  /** The client after `m` octets of its reply were sent. */
  function SentTo(x: Stream, m: nat): Stream
    requires m <= |x.queue|
  {
    x.(queue := x.queue[m..],
       sock := x.sock.(sent := x.sock.sent + x.queue[..m], said := x.sock.said + x.queue[..m]),
       events := if m < |x.queue| then x.events
                 else if x.level == Pass then Events(false, false, false, false) else Events(true, false, false, false))
  }

  lemma SendTakes(me: Stream, e: Env)
    ensures DrainQueue(me, e) == if e.taken < 0 then None else Some(SentTo(me, TakenOf(e, |me.queue|)))
  {
  }

  lemma HearsReacts(a: Sys, i: int, e: Env)
    requires Sound(a) && i in a.live && IsSlot(i) && Served(a.st[i]) && Drains(a.st[i]) && !Forwards(a, i, e)
    ensures var r := React(a, i, e);
      && r.ok && r.victim == NULL
      && if e.taken < 0 then Dropped(a, r.s, i) else OnlyChanged(a, r.s, i, SentTo(a.st[i], TakenOf(e, |a.st[i].queue|)))
  {
    ServedReacts(a, i, e);
    SendTakes(a.st[i], e);
    AbandonJustDrops(a, i);
  }

  /**
   * A failing send drops the client; else it takes some octets off the front of the reply, and once none
   * is left the client is to be read again, or, if its endpoint is awaited, not to be watched.
   */
  lemma ReplyingTurn(s: Sys, i: int, e: Env)
    requires Base(s) && i in s.live && Hears(s.st[i])
    ensures var r, a := Visit(s, i, e), Arrive(s, e.arrivals);
      && |a.st| == POOL_SIZE && IsSlot(i) && r.ok && r.victim == NULL
      && if e.taken < 0 then Dropped(a, r.s, i)
         else OnlyChanged(a, r.s, i, SentTo(a.st[i], TakenOf(e, |a.st[i].queue|)))
  {
    VisitReacts(s, i, e);
    HearsReacts(Arrive(s, e.arrivals), i, e);
  }

  // ---------------------------------------------------------------------------------------------
  // Endpoints
  // ---------------------------------------------------------------------------------------------

  /** A stream as it starts to forward. */
  function Started(x: Stream, drained: bool): Stream {
    x.(level := Forwarding, events := Events(true, false, false, false), drained := drained,
       sock := Sock(x.sock.unread, [], x.sock.unread, x.sock.heard, [], []))
  }

  /**
   * An endpoint that connects, with a partner, and becomes readable, writable or both, starts to forward
   * together with its partner; any other endpoint that does not forward is dropped.
   */
  lemma EndpointTurn(s: Sys, i: int, e: Env)
    requires Base(s) && i in s.live && s.st[i].role == Endpoint && Served(s.st[i]) && !Coupled(s.st[i])
    ensures var r, a := Visit(s, i, e), Arrive(s, e.arrivals);
      && |a.st| == POOL_SIZE && IsSlot(i) && r.ok && r.victim == NULL
      && var j := a.st[i].neighbour;
         if a.st[i].level == Connecting && j != NULL then
           && IsSlot(j) && j != i
           && r.s == a.(st := a.st[i := Started(a.st[i], a.st[i].drained)][j := Started(a.st[j], a.st[j].queue == [])])
         else Dropped(a, r.s, i)
  {
    VisitReacts(s, i, e);
    EndpointReacts(Arrive(s, e.arrivals), i, e);
  }

  lemma PromoteStarts(a: Sys, i: int)
    requires Shape(a) && IsSlot(i) && a.st[i].neighbour != NULL
    ensures var j := a.st[i].neighbour;
      && IsSlot(j) && j != i
      && Promote(a, i) == a.(st := a.st[i := Started(a.st[i], a.st[i].drained)][j := Started(a.st[j], a.st[j].queue == [])])
  {
  }

  lemma EndpointReacts(a: Sys, i: int, e: Env)
    requires Base(a) && i in a.live && IsSlot(i) && a.st[i].role == Endpoint && Served(a.st[i]) && !Coupled(a.st[i])
    ensures var r := React(a, i, e);
      && r.ok && r.victim == NULL
      && var j := a.st[i].neighbour;
         if a.st[i].level == Connecting && j != NULL then
           && IsSlot(j) && j != i
           && r.s == a.(st := a.st[i := Started(a.st[i], a.st[i].drained)][j := Started(a.st[j], a.st[j].queue == [])])
         else Dropped(a, r.s, i)
  {
    ServedReacts(a, i, e);
    assert HandleEvents(a, i, e) == ByRole(a, i, e);
    if a.st[i].level == Connecting && a.st[i].neighbour != NULL {
      PromoteStarts(a, i);
    } else {
      AbandonJustDrops(a, i);
    }
  }

  // ---------------------------------------------------------------------------------------------
  // Forwarding
  // ---------------------------------------------------------------------------------------------

  /** How many octets are offered to send: all there are, 16384 at most, and no more than there is room for. */
  function Offered(nb: Stream, room: int): int {
    var n := if |nb.sock.unread| < 16384 then |nb.sock.unread| else 16384;
    if room < n then room else n
  }

  /** Both sides after `m` octets went from `nb` to `x`. */
  function Delivered(x: Stream, nb: Stream, m: nat): (Stream, Stream)
    requires m <= |nb.sock.unread|
  {
    var piece := nb.sock.unread[..m];
    (x.(events := x.events.(wr := false), sock := x.sock.(sent := x.sock.sent + piece, passed := x.sock.passed + piece)),
     nb.(events := nb.events.(rd := true), sock := nb.sock.(unread := nb.sock.unread[m..])))
  }

  lemma ForwardDelivers(me: Stream, nb: Stream, e: Env)
    requires me.revents.wr && e.taken >= 0 && Offered(nb, e.room) > 0
    ensures ForwardData(me, nb, e) == Some(Delivered(me, nb, TakenOf(e, Offered(nb, e.room))))
  {
  }

  lemma ForwardStuck(me: Stream, nb: Stream, e: Env)
    requires me.revents.wr && (e.taken < 0 || Offered(nb, e.room) <= 0)
    ensures ForwardData(me, nb, e) == None
  {
  }

  /** Two streams are other ones. */
  predicate BothChanged(a: Sys, t: Sys, i: int, x: Stream, j: int, y: Stream)
    requires |a.st| == POOL_SIZE && IsSlot(i) && IsSlot(j)
  {
    t == a.(st := a.st[i := x][j := y])
  }

  lemma ForwardsReacts(a: Sys, i: int, e: Env)
    requires Sound(a) && i in a.live && IsSlot(i) && Served(a.st[i]) && Coupled(a.st[i])
    requires ForwardData(a.st[i], a.st[a.st[i].neighbour], e).Some?
    ensures var j := a.st[i].neighbour;
      var (x, y) := ForwardData(a.st[i], a.st[j], e).value;
      IsSlot(j) && j != i && React(a, i, e).ok && React(a, i, e).victim == NULL && BothChanged(a, React(a, i, e).s, i, x, j, y)
  {
    ServedReacts(a, i, e);
  }

  /**
   * A forwarding stream that became readable is not to be watched for that until its partner, which is to
   * be watched for writing now, has been.
   */
  lemma ReadableTurn(s: Sys, i: int, e: Env)
    requires Base(s) && i in s.live && Served(s.st[i]) && Coupled(s.st[i]) && !s.st[i].revents.wr
    ensures var r, a := Visit(s, i, e), Arrive(s, e.arrivals);
      && |a.st| == POOL_SIZE && IsSlot(i) && r.ok && r.victim == NULL
      && var j := a.st[i].neighbour;
         && IsSlot(j) && j != i
         && BothChanged(a, r.s, i, a.st[i].(events := a.st[i].events.(rd := false)), j, a.st[j].(events := a.st[j].events.(wr := true)))
  {
    VisitReacts(s, i, e);
    ForwardsReacts(Arrive(s, e.arrivals), i, e);
  }

  /**
   * A forwarding stream that became writable, whether or not it is readable as well, is sent what its
   * partner received, as far as send takes it; then the partner is to be watched for reading again.
   */
  lemma WritableTurn(s: Sys, i: int, e: Env)
    requires Base(s) && i in s.live && Served(s.st[i]) && Coupled(s.st[i]) && s.st[i].revents.wr
    requires IsSlot(s.st[i].neighbour) && e.taken >= 0 && Offered(Arrive(s, e.arrivals).st[s.st[i].neighbour], e.room) > 0
    ensures var r, a := Visit(s, i, e), Arrive(s, e.arrivals);
      && |a.st| == POOL_SIZE && IsSlot(i) && r.ok && r.victim == NULL
      && var j := a.st[i].neighbour;
         && IsSlot(j) && j != i
         && var (x, y) := Delivered(a.st[i], a.st[j], TakenOf(e, Offered(a.st[j], e.room)));
            BothChanged(a, r.s, i, x, j, y)
  {
    VisitReacts(s, i, e);
    var a := Arrive(s, e.arrivals);
    ForwardDelivers(a.st[i], a.st[a.st[i].neighbour], e);
    ForwardsReacts(a, i, e);
  }

  /**
   * When nothing can be forwarded, for want of octets or of room or because send fails, a client is sent
   * what is left of its reply instead; without that the stream is dropped.
   */
  lemma StuckTurn(s: Sys, i: int, e: Env)
    requires Base(s) && i in s.live && Served(s.st[i]) && Coupled(s.st[i]) && s.st[i].revents.wr && IsSlot(s.st[i].neighbour)
    requires s.st[i].role == Client || s.st[i].role == Endpoint
    requires e.taken < 0 || Offered(Arrive(s, e.arrivals).st[s.st[i].neighbour], e.room) <= 0
    ensures var r, a := Visit(s, i, e), Arrive(s, e.arrivals);
      && |a.st| == POOL_SIZE && IsSlot(i) && r.ok && r.victim == NULL
      && if e.taken >= 0 && a.st[i].role == Client && a.st[i].queue != [] then
           OnlyChanged(a, r.s, i, SentTo(a.st[i], TakenOf(e, |a.st[i].queue|)))
         else Dropped(a, r.s, i)
  {
    VisitReacts(s, i, e);
    StuckReacts(Arrive(s, e.arrivals), i, e);
  }

  lemma StuckReacts(a: Sys, i: int, e: Env)
    requires Base(a) && i in a.live && IsSlot(i) && Served(a.st[i]) && Coupled(a.st[i]) && a.st[i].revents.wr && IsSlot(a.st[i].neighbour)
    requires a.st[i].role == Client || a.st[i].role == Endpoint
    requires e.taken < 0 || Offered(a.st[a.st[i].neighbour], e.room) <= 0
    ensures var r := React(a, i, e);
      && r.ok && r.victim == NULL
      && if e.taken >= 0 && a.st[i].role == Client && a.st[i].queue != [] then
           OnlyChanged(a, r.s, i, SentTo(a.st[i], TakenOf(e, |a.st[i].queue|)))
         else Dropped(a, r.s, i)
  {
    ForwardStuck(a.st[i], a.st[a.st[i].neighbour], e);
    if Drains(a.st[i]) {
      HearsReacts(a, i, e);
    } else {
      ServedReacts(a, i, e);
      AbandonJustDrops(a, i);
      if a.st[i].role == Client {
        ForwarderHangs(a, i, e);
      }
    }
  }

  lemma ForwarderHangs(a: Sys, i: int, e: Env)
    requires Base(a) && i in a.live && IsSlot(i) && a.st[i].level == Forwarding
    ensures var r := HandleSocks(a, i, e); r.ok && r.victim == NULL && (!a.st[i].revents.rd ==> r.s == Abandon(a, i))
    ensures a.st[i].revents.rd ==> Dropped(a, HandleSocks(a, i, e).s, i)
  {
    PutBase(a, i, Read(a.st[i]));
    AbandonDrops(a, i, Read(a.st[i]));
  }

  // ---------------------------------------------------------------------------------------------
  // Severe errors
  // ---------------------------------------------------------------------------------------------

  /** The listener is to accept, and no connection can be had or made non-blocking. */
  predicate CannotAccept(a: Sys, i: int, e: Env)
    requires Shape(a) && IsSlot(i)
  {
    var x := a.st[i];
    && x.role == Listener && Served(x) && x.revents.rd && !Forwards(a, i, e)
    && (e.accepted < 0 || e.accepted in a.os.fds.open || !e.nonblocking)
  }

  /** A client has sent its whole request, the destination is known, and there is no socket for it. */
  ghost predicate CannotDial(a: Sys, i: int, e: Env)
    requires Shape(a) && IsSlot(i)
  {
    && (exists r :: Asks(a.st[i], r) && (r.Host? ==> e.resolved))
    && (e.dialing == NoSocket || e.dialing.fd < 0 || e.dialing.fd in a.os.fds.open)
  }

  lemma ListenerSevere(a: Sys, i: int, e: Env)
    requires Base(a) && i in a.live && IsSlot(i) && a.st[i].role == Listener && Served(a.st[i])
    ensures !React(a, i, e).ok <==> CannotAccept(a, i, e)
  {
    ServedReacts(a, i, e);
  }

  lemma TalkingSevere(s: Sys, i: int, e: Env)
    requires Base(s) && i in s.live && Talks(s.st[i]) && s.st[i].level == Req && Usable(Arrive(s, e.arrivals).st[i])
    ensures var a := Arrive(s, e.arrivals); Shape(a) && IsSlot(i) && (!Visit(s, i, e).ok <==> CannotDial(a, i, e))
  {
    VisitReacts(s, i, e);
    ArriveSound(s, e.arrivals);
    var a := Arrive(s, e.arrivals);
    if r :| WellFormed(r) && EncodeRequest(r) <= a.st[i].queue + Got(a.st[i]) {
      AskingSevere(s, a, i, e, r);
    } else {
      RequestTurn(s, i, e);
    }
  }

  lemma AskingSevere(s: Sys, a: Sys, i: int, e: Env, r: Request)
    requires Base(s) && i in s.live && a == Arrive(s, e.arrivals) && Shape(a) && IsSlot(i) && Asks(a.st[i], r) && a.os == s.os
    ensures !Visit(s, i, e).ok <==> CannotDial(a, i, e)
  {
    forall q | Asks(a.st[i], q)
      ensures q == r
    {
      ParseMeansEncoded(a.st[i].queue + Got(a.st[i]), q);
      ParseMeansEncoded(a.st[i].queue + Got(a.st[i]), r);
    }
    if r.Host? && !e.resolved {
      UnresolvedTurn(s, i, e, r);
    } else if e.dialing == NoSocket || e.dialing.fd < 0 || e.dialing.fd in s.os.fds.open {
      NoSocketTurn(s, i, e, r);
    } else if e.dialing.Refused? {
      RefusedTurn(s, i, e, r);
    } else {
      PendingTurn(s, i, e, r);
    }
  }

  lemma CoupledFine(s: Sys, i: int, e: Env)
    requires Base(s) && i in s.live && Served(s.st[i]) && Coupled(s.st[i]) && s.st[i].role in {Client, Endpoint}
    ensures Visit(s, i, e).ok && Visit(s, i, e).victim == NULL
  {
    VisitReacts(s, i, e);
    if !s.st[i].revents.wr {
      ReadableTurn(s, i, e);
    } else if e.taken < 0 || Offered(Arrive(s, e.arrivals).st[s.st[i].neighbour], e.room) <= 0 {
      StuckTurn(s, i, e);
    } else {
      WritableTurn(s, i, e);
    }
  }

  lemma TalkingFine(s: Sys, i: int, e: Env)
    requires Base(s) && i in s.live && Talks(s.st[i]) && !(s.st[i].level == Req && Usable(Arrive(s, e.arrivals).st[i]))
    ensures Visit(s, i, e).ok
  {
    if !Usable(Arrive(s, e.arrivals).st[i]) {
      UnusableTurn(s, i, e);
    } else if s.st[i].level == Ver {
      GreetingTurn(s, i, e);
    } else if s.st[i].level == Auth {
      CredentialsTurn(s, i, e);
    } else {
      UnexpectedTurn(s, i, e);
    }
  }

  /**
   * A turn ends in a severe error, and with it the proxy, exactly when a connection is to be accepted and
   * cannot be, or a request is complete and there is no socket for it.  No other failure is severe.
   */
  lemma SevereExactlyWhen(s: Sys, i: int, e: Env)
    requires Base(s) && i in s.live
    ensures var a := Arrive(s, e.arrivals);
      Shape(a) && IsSlot(i) && (!Visit(s, i, e).ok <==> CannotAccept(a, i, e) || CannotDial(a, i, e))
  {
    VisitReacts(s, i, e);
    var x := s.st[i];
    if x.abandoned || x.revents == Events(false, false, false, false) {
      PassedOver(s, i, e);
    } else if x.revents.err || x.revents.hup {
      ErrorDrops(s, i, e);
    } else {
      ServedSevere(s, i, e);
    }
  }

  lemma ServedSevere(s: Sys, i: int, e: Env)
    requires Base(s) && i in s.live && Served(s.st[i])
    ensures var a := Arrive(s, e.arrivals);
      Shape(a) && IsSlot(i) && (!Visit(s, i, e).ok <==> CannotAccept(a, i, e) || CannotDial(a, i, e))
  {
    VisitReacts(s, i, e);
    var x := s.st[i];
    if x.role == Listener {
      ListenerSevere(Arrive(s, e.arrivals), i, e);
    } else if Coupled(x) {
      CoupledFine(s, i, e);
    } else if x.role == Endpoint {
      EndpointTurn(s, i, e);
    } else if Hears(x) {
      ReplyingTurn(s, i, e);
    } else if x.level == Req && Usable(Arrive(s, e.arrivals).st[i]) {
      TalkingSevere(s, i, e);
    } else {
      TalkingFine(s, i, e);
    }
  }
}
