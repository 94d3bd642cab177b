/**
 * What one turn does to the list and to the streams it is not about: nobody's events are touched,
 * levels only advance, at most one stream goes and the newcomer takes its slot.
 */
module Steps {
  import opened PollEvents
  import opened LiveLists
  import opened Socks
  import opened Streams
  import opened Handlers
  import opened BaseInvariant

  /** Handshake stages a client that still has events to handle may go through. */
  function Weight(x: Stream): nat {
    if x.role == Client && x.revents.Any() then
      match x.level
      case Ver => 3
      case Auth => 2
      case Req => 1
      case _ => 0
    else 0
  }

  /** The queue fits its buffer. */
  predicate QueueFits(x: Stream) {
    |x.queue| <= CAPACITY
  }

  /** `y` is a later state of the stream `x`. */
  predicate Later(x: Stream, y: Stream) {
    && y.role == x.role && y.fd == x.fd && y.revents == x.revents
    && Rank(x.level) <= Rank(y.level)
    && (x.abandoned ==> y.abandoned)
    && Weight(y) <= Weight(x)
    && (QueueFits(x) ==> QueueFits(y))
  }

  ghost predicate Steady(s: Sys, t: Sys) {
    && |s.st| == POOL_SIZE && |t.st| == POOL_SIZE
    && t.live == s.live && t.stamp == s.stamp && t.clock == s.clock
    && forall x :: IsSlot(x) ==> Later(s.st[x], t.st[x])
  }

  /** A stream was added in slot `k`, after the removal of `victim` unless that is NULL. */
  ghost predicate Grown(s: Sys, t: Sys, k: int, victim: int) {
    && |s.st| == POOL_SIZE && |t.st| == POOL_SIZE && |s.stamp| == POOL_SIZE && IsSlot(k)
    && t.live == [k] + Sieve(s.live, {victim})
    && (if victim == NULL then k !in s.live else k == victim && victim in s.live)
    && t.stamp == s.stamp[k := s.clock] && t.clock == s.clock + 1
    && !t.st[k].revents.Any() && QueueFits(t.st[k])
    && forall x :: IsSlot(x) && x != k ==> Later(s.st[x], t.st[x])
  }

  lemma SteadyTwice(s: Sys, t: Sys, u: Sys)
    requires Steady(s, t) && Steady(t, u)
    ensures Steady(s, u)
  {
  }

  lemma SteadyGrown(s: Sys, t: Sys, u: Sys, k: int, victim: int)
    requires Steady(s, t) && Grown(t, u, k, victim)
    ensures Grown(s, u, k, victim)
  {
  }

  lemma AbandonSteady(s: Sys, i: int)
    requires Shape(s) && IsSlot(i)
    ensures Steady(s, Abandon(s, i))
  {
  }

  lemma AdmitGrown(s: Sys, fd: int, role: Role, level: Level, events: Events)
    requires Sound(s) && FreeSlot(s) != NULL
    ensures Grown(s, Admit(s, fd, role, level, events), FreeSlot(s), NULL)
  {
    SieveNull(s.live, s.stamp);
  }

  lemma EvictLater(s: Sys, excl: int)
    requires Shape(s) && Victim(s, excl) != NULL
    ensures var t := Evict(s, excl);
      && t.live == Sieve(s.live, {Victim(s, excl)}) && t.stamp == s.stamp && t.clock == s.clock
      && t.evictions == s.evictions + 1 && |t.st| == POOL_SIZE
      && forall x :: IsSlot(x) && x != Victim(s, excl) ==> Later(s.st[x], t.st[x])
  {
    AbandonSteady(s, Victim(s, excl));
  }

  lemma SeatGrown(s: Sys, fd: int, excl: int, role: Role, level: Level, events: Events)
    requires Sound(s)
    ensures var r := Seat(s, fd, excl, role, level, events);
      && Grown(s, r.s, r.slot, r.victim)
      && (r.victim != NULL ==> r.victim != excl)
      && r.s.evictions == s.evictions + (if r.victim == NULL then 0 else 1)
  {
    if FreeSlot(s) == NULL {
      EvictionFreesOneSlot(s, excl);
      EvictShape(s, excl);
      EvictLater(s, excl);
      var v := Victim(s, excl);
      var t := Evict(s, excl);
      AdmitGrown(t, fd, role, level, events);
      SieveNull(t.live, t.stamp);
      GrownAfterLoss(s, t, Admit(t, fd, role, level, events), v);
    } else {
      AdmitGrown(s, fd, role, level, events);
    }
  }

  lemma GrownAfterLoss(s: Sys, t: Sys, u: Sys, v: int)
    requires |s.st| == POOL_SIZE && |s.stamp| == POOL_SIZE && v != NULL && v in s.live
    requires |t.st| == POOL_SIZE && t.live == Sieve(s.live, {v}) && t.stamp == s.stamp && t.clock == s.clock
    requires forall x :: IsSlot(x) && x != v ==> Later(s.st[x], t.st[x])
    requires Grown(t, u, v, NULL) && Sieve(t.live, {NULL}) == t.live
    ensures Grown(s, u, v, v)
  {
  }

  /** The outcome of a turn of `i`: nothing moved in the list, or one stream came and at most one went. */
  ghost predicate Stepped(s: Sys, i: int, r: Outcome)
    requires Shape(s) && i in s.live
  {
    || (Steady(s, r.s) && r.victim == NULL && r.s.evictions == s.evictions)
    || (&& r.s.live != [] && Grown(s, r.s, r.s.live[0], r.victim)
        && r.victim != i
        && (r.victim != NULL ==> s.st[i].role == Listener || Weight(r.s.st[i]) < Weight(s.st[i]))
        && r.s.evictions == s.evictions + (if r.victim == NULL then 0 else 1))
  }

  lemma HandleNewStreamStep(s: Sys, i: int, e: Env)
    requires Sound(s) && i in s.live && s.st[i].role == Listener && !s.st[i].abandoned
    ensures Stepped(s, i, HandleNewStream(s, i, e))
  {
    if s.st[i].revents.rd && Fresh(s, e.accepted) && e.nonblocking {
      var o := OpenFd(s, e.accepted);
      SeatGrown(o, e.accepted, NULL, Client, Ver, IN);
      if FreeSlot(o) == NULL {
        VictimExists(o, NULL);
        VictimIsOldest(o, NULL);
      }
    }
  }

  lemma SetupEndpointStep(s: Sys, i: int, e: Env)
    requires Sound(s) && i in s.live && s.st[i].role == Client && s.st[i].level == Req && s.st[i].revents.Any()
    ensures Stepped(s, i, SetupEndpoint(s, i, e))
  {
    match e.dialing
    case NoSocket =>
    case Refused(fd) =>
      if Fresh(s, fd) {
        AbandonSteady(CloseFd(OpenFd(s, fd), fd), i);
      }
    case Pending(fd) =>
      if Fresh(s, fd) {
        DialledStep(s, i, fd);
      }
  }

  lemma DialledStep(s: Sys, i: int, fd: int)
    requires Sound(s) && i in s.live && s.st[i].role == Client && s.st[i].level == Req && s.st[i].revents.Any()
    ensures var seat := Seat(OpenFd(s, fd), fd, i, Endpoint, Connecting, INOUT);
      Stepped(s, i, Outcome(Join(seat.s, i, seat.slot), true, seat.victim))
  {
    var o := OpenFd(s, fd);
    SeatGrown(o, fd, i, Endpoint, Connecting, INOUT);
    SeatSpares(o, fd, i, Endpoint, Connecting, INOUT);
    var seat := Seat(o, fd, i, Endpoint, Connecting, INOUT);
    JoinGrown(o, i, seat.s, seat.slot, seat.victim);
  }

  lemma JoinGrown(s: Sys, i: int, t: Sys, k: int, victim: int)
    requires Grown(s, t, k, victim) && IsSlot(i) && i != k
    requires s.st[i].role == Client && s.st[i].level == Req && s.st[i].revents.Any()
    ensures Grown(s, Join(t, i, k), k, victim) && Weight(Join(t, i, k).st[i]) < Weight(s.st[i])
    ensures Join(t, i, k).live == t.live
  {
    assert Later(s.st[i], t.st[i]);
  }

  // ---------------------------------------------------------------------------------------------
  // Every handler steps
  // ---------------------------------------------------------------------------------------------

  lemma PutSteady(s: Sys, i: int, x: Stream)
    requires Shape(s) && IsSlot(i) && Later(s.st[i], x)
    ensures Steady(s, Put(s, i, x))
  {
  }

  lemma ReadLater(me: Stream)
    ensures Later(me, Read(me))
  {
  }

  lemma SteadyStepped(s: Sys, i: int, t: Sys, r: Outcome)
    requires Shape(s) && i in s.live && Shape(t) && Steady(s, t) && t.evictions == s.evictions
    requires Stepped(t, i, r)
    ensures Stepped(s, i, r)
  {
    assert Later(s.st[i], t.st[i]);
    if Steady(t, r.s) {
      SteadyTwice(s, t, r.s);
    } else {
      SteadyGrown(s, t, r.s, r.s.live[0], r.victim);
    }
  }

  lemma RespondStep(s: Sys, i: int, reaction: Reaction, e: Env)
    requires Sound(s) && i in s.live && s.st[i].role == Client && s.st[i].revents.Any()
    requires reaction.Dial? ==> s.st[i].level == Req
    requires reaction.Reply? ==> s.st[i].level in {Ver, Auth} && reaction.level in {Auth, Req} && Rank(s.st[i].level) < Rank(reaction.level) && |reaction.bytes| <= CAPACITY
    ensures Stepped(s, i, Respond(s, i, reaction, e))
  {
    AbandonSteady(s, i);
    if reaction.Dial? {
      SetupEndpointStep(s, i, e);
    }
    if reaction.Reply? {
      PutSteady(s, i, Answer(s.st[i], reaction.level, reaction.bytes));
    }
  }

  lemma HandleSocksStep(s: Sys, i: int, e: Env)
    requires Base(s) && i in s.live && s.st[i].role == Client && s.st[i].revents.Any()
    ensures Stepped(s, i, HandleSocks(s, i, e))
  {
    var me := s.st[i];
    if me.revents.rd {
      var t := Put(s, i, Read(me));
      PutBase(s, i, Read(me));
      ReadLater(me);
      PutSteady(s, i, Read(me));
      RespondStep(t, i, Receive(me.level, me.queue, Chunk(me)), e);
      SteadyStepped(s, i, t, HandleSocks(s, i, e));
    } else {
      AbandonSteady(s, i);
    }
  }

  lemma ForwardSteady(s: Sys, i: int, e: Env)
    requires Shape(s) && IsSlot(i) && Forwards(s, i, e)
    ensures var (x, y) := ForwardData(s.st[i], s.st[s.st[i].neighbour], e).value;
      Steady(s, Put(Put(s, i, x), s.st[i].neighbour, y))
  {
  }

  lemma PromoteSteady(s: Sys, i: int)
    requires Shape(s) && IsSlot(i) && s.st[i].neighbour != NULL
    ensures Steady(s, Promote(s, i))
  {
  }

  lemma DrainLater(me: Stream, e: Env)
    requires DrainQueue(me, e).Some?
    ensures Later(me, DrainQueue(me, e).value)
  {
  }

  lemma HandleEventsStep(s: Sys, i: int, e: Env)
    requires Base(s) && i in s.live && !s.st[i].abandoned && s.st[i].revents.Any()
    ensures Stepped(s, i, HandleEvents(s, i, e))
  {
    var me := s.st[i];
    AbandonSteady(s, i);
    if Forwards(s, i, e) {
      ForwardSteady(s, i, e);
    } else if Drains(me) {
      if DrainQueue(me, e).Some? {
        DrainLater(me, e);
        PutSteady(s, i, DrainQueue(me, e).value);
      }
    } else {
      match me.role
      case Listener => HandleNewStreamStep(s, i, e);
      case Client => HandleSocksStep(s, i, e);
      case Endpoint =>
        if me.neighbour != NULL {
          PromoteSteady(s, i);
        }
      case Invalid =>
    }
  }

  /** Every turn, whatever happens in it, moves the list and the streams only as Stepped says. */
  lemma VisitStep(s: Sys, i: int, e: Env)
    requires Base(s) && i in s.live
    ensures Stepped(s, i, Visit(s, i, e))
  {
    ArriveSteady(s, e.arrivals);
    var a := Arrive(s, e.arrivals);
    ReactStep(a, i, e);
    SteadyStepped(s, i, a, Visit(s, i, e));
  }

  lemma ArriveSteady(s: Sys, arrivals: seq<Arrival>)
    requires Base(s)
    ensures var a := Arrive(s, arrivals); Base(a) && Steady(s, a) && a.evictions == s.evictions
  {
    ArriveSound(s, arrivals);
    SoftBase(s, Arrive(s, arrivals), {});
  }

  lemma ReactStep(s: Sys, i: int, e: Env)
    requires Base(s) && i in s.live
    ensures Stepped(s, i, React(s, i, e))
  {
    AbandonSteady(s, i);
    if !s.st[i].abandoned && s.st[i].revents.Any() {
      HandleEventsStep(s, i, e);
    }
  }
}
