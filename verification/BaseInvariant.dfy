/**
 * What holds in every run, with no hypothesis: the shape of the list, one listener, descriptors
 * conserved, and the epoll interest list in agreement with the streams.
 */
module BaseInvariant {
  import opened PollEvents
  import opened LiveLists
  import opened Socks
  import opened Streams
  import opened Handlers

  /** Only fields that the base invariant does not depend on differ. */
  ghost predicate Soft(s: Sys, t: Sys) {
    && t.live == s.live && t.stamp == s.stamp && t.clock == s.clock && t.os == s.os
    && |s.st| == POOL_SIZE && |t.st| == POOL_SIZE
    && forall i :: IsSlot(i) ==>
         && t.st[i].role == s.st[i].role && t.st[i].fd == s.st[i].fd
         && t.st[i].pollref == s.st[i].pollref && t.st[i].levents == s.st[i].levents
         && (t.st[i].neighbour == NULL || (IsSlot(t.st[i].neighbour) && t.st[i].neighbour != i))
  }

  lemma SoftFds(s: Sys, t: Sys)
    requires Shape(s) && Soft(s, t)
    ensures Shape(t) && LiveFds(t) == LiveFds(s)
    ensures Roles(s) ==> Roles(t)
  {
    forall i | i in s.live
      ensures t.st[i].fd == s.st[i].fd
    {
      assert IsSlot(i);
    }
  }

  lemma SoftBase(s: Sys, t: Sys, loose: set<int>)
    requires Shape(s) && Soft(s, t)
    ensures Shape(t)
    ensures Roles(s) ==> Roles(t)
    ensures Conserved(s, loose) ==> Conserved(t, loose)
    ensures KernelAgrees(s) ==> KernelAgrees(t)
  {
    SoftFds(s, t);
    assert forall i :: i in s.live ==> IsSlot(i);
  }

  // ---------------------------------------------------------------------------------------------
  // Removal
  // ---------------------------------------------------------------------------------------------

  lemma RemoveFds(s: Sys, i: int, loose: set<int>)
    requires Shape(s) && i in s.live && Conserved(s, loose)
    ensures Shape(Remove(s, i))
    ensures LiveFds(Remove(s, i)) == LiveFds(s) - {s.st[i].fd}
  {
    RemoveShape(s, i);
    var t := Remove(s, i);
    forall j | j in s.live && j != i
      ensures j in t.live && t.st[j] == s.st[j] && s.st[j].fd != s.st[i].fd
    {
    }
  }

  lemma CloseCounts(d: Descriptors, fd: int)
    requires fd in d.open && d.acquired == d.released + multiset(d.open)
    ensures d.Close(fd).acquired == d.Close(fd).released + multiset(d.Close(fd).open)
  {
    assert multiset(d.open) == multiset(d.open - {fd}) + multiset{fd};
  }

  lemma CloseOwned(open: set<int>, owned: set<int>, ep: set<int>, loose: set<int>, fd: int)
    requires open == owned + ep + loose && owned !! ep !! loose && fd in owned
    ensures open - {fd} == (owned - {fd}) + ep + loose && (owned - {fd}) !! ep !! loose
  {
  }

  /** A removed stream's descriptor was open, and closing it keeps the count. */
  lemma RemoveConserves(s: Sys, i: int, loose: set<int>)
    requires Shape(s) && i in s.live && Conserved(s, loose)
    ensures s.st[i].fd in s.os.fds.open
    ensures Shape(Remove(s, i)) && Conserved(Remove(s, i), loose)
  {
    RemoveFds(s, i, loose);
    var fd := s.st[i].fd;
    assert fd in LiveFds(s);
    CloseCounts(s.os.fds, fd);
    CloseOwned(s.os.fds.open, LiveFds(s), EpollFd(s.os), loose, fd);
  }

  lemma RemoveAgrees(s: Sys, i: int, loose: set<int>)
    requires Shape(s) && i in s.live && Conserved(s, loose) && KernelAgrees(s)
    ensures Shape(Remove(s, i)) && KernelAgrees(Remove(s, i))
  {
    RemoveFds(s, i, loose);
  }

  lemma AbandonBase(s: Sys, i: int, loose: set<int>)
    requires Shape(s) && IsSlot(i)
    ensures Shape(Abandon(s, i))
    ensures Roles(s) ==> Roles(Abandon(s, i))
    ensures Conserved(s, loose) ==> Conserved(Abandon(s, i), loose)
    ensures KernelAgrees(s) ==> KernelAgrees(Abandon(s, i))
  {
    SoftBase(s, Abandon(s, i), loose);
  }

  lemma EvictBase(s: Sys, excl: int, loose: set<int>)
    requires Sound(s) && Conserved(s, loose) && KernelAgrees(s)
    ensures Sound(Evict(s, excl)) && Conserved(Evict(s, excl), loose) && KernelAgrees(Evict(s, excl))
  {
    EvictShape(s, excl);
    var v := Victim(s, excl);
    if v != NULL {
      AbandonBase(s, v, loose);
      RemoveConserves(Abandon(s, v), v, loose);
      RemoveAgrees(Abandon(s, v), v, loose);
    }
  }

  // ---------------------------------------------------------------------------------------------
  // Insertion
  // ---------------------------------------------------------------------------------------------

  lemma AdmitShape(s: Sys, fd: int, role: Role, level: Level, events: Events)
    requires Sound(s) && FreeSlot(s) != NULL && role != Invalid && role != Listener
    ensures Sound(Admit(s, fd, role, level, events))
    ensures LiveFds(Admit(s, fd, role, level, events)) == LiveFds(s) + {fd}
  {
    InsertShape(s, fd);
    var t := Admit(s, fd, role, level, events);
    var k := FreeSlot(s);
    assert t.st[k].fd == fd && k in t.live;
    forall j | j in s.live
      ensures j in t.live && t.st[j] == s.st[j] && t.stamp[j] == s.stamp[j]
    {
      assert j != k;
    }
  }

  lemma AdmitBase(s: Sys, fd: int, role: Role, level: Level, events: Events)
    requires Sound(s) && FreeSlot(s) != NULL && role != Invalid && role != Listener
    requires fd >= 0 && Conserved(s, {fd}) && KernelAgrees(s)
    ensures Base(Admit(s, fd, role, level, events))
  {
    AdmitShape(s, fd, role, level, events);
    var t := Admit(s, fd, role, level, events);
    var k := FreeSlot(s);
    assert t.live == [k] + s.live;
    forall j | j in s.live
      ensures j in t.live && t.st[j] == s.st[j] && j != k && t.st[j].fd != fd
    {
      assert s.st[j].fd in LiveFds(s);
    }
  }

  lemma OpenConserves(s: Sys, fd: int)
    requires Base(s) && Fresh(s, fd)
    ensures Sound(OpenFd(s, fd)) && Conserved(OpenFd(s, fd), {fd}) && KernelAgrees(OpenFd(s, fd))
  {
    var t := OpenFd(s, fd);
    assert LiveFds(t) == LiveFds(s);
    assert multiset(t.os.fds.open) == multiset(s.os.fds.open) + multiset{fd};
    assert forall i :: i in s.live ==> RegisteredAt(s, i) == RegisteredAt(t, i);
  }

  lemma CloseLooseConserves(s: Sys, fd: int)
    requires Sound(s) && Conserved(s, {fd}) && KernelAgrees(s)
    ensures Base(CloseFd(s, fd))
  {
    var t := CloseFd(s, fd);
    CloseCounts(s.os.fds, fd);
    assert LiveFds(t) == LiveFds(s);
    assert forall i :: i in s.live ==> RegisteredAt(s, i) == RegisteredAt(t, i);
  }

  lemma OpenBase(s: Sys, fd: int)
    requires Base(s) && Fresh(s, fd)
    ensures Sound(OpenFd(s, fd)) && Conserved(OpenFd(s, fd), {fd}) && KernelAgrees(OpenFd(s, fd))
    ensures Base(CloseFd(OpenFd(s, fd), fd))
  {
    OpenConserves(s, fd);
    CloseLooseConserves(OpenFd(s, fd), fd);
  }

  lemma SeatBase(s: Sys, fd: int, excl: int, role: Role, level: Level, events: Events)
    requires Sound(s) && fd >= 0 && Conserved(s, {fd}) && KernelAgrees(s)
    requires role != Invalid && role != Listener
    ensures Base(Seat(s, fd, excl, role, level, events).s)
  {
    if FreeSlot(s) != NULL {
      AdmitBase(s, fd, role, level, events);
    } else {
      EvictionFreesOneSlot(s, excl);
      EvictBase(s, excl, {fd});
      AdmitBase(Evict(s, excl), fd, role, level, events);
    }
  }

  // ---------------------------------------------------------------------------------------------
  // Handlers
  // ---------------------------------------------------------------------------------------------

  lemma HandleNewStreamBase(s: Sys, i: int, e: Env)
    requires Base(s) && i in s.live
    ensures Base(HandleNewStream(s, i, e).s)
  {
    if s.st[i].revents.rd && Fresh(s, e.accepted) {
      OpenBase(s, e.accepted);
      if e.nonblocking {
        SeatBase(OpenFd(s, e.accepted), e.accepted, NULL, Client, Ver, IN);
      }
    }
  }

  /** The stream that asked for the endpoint is never the one evicted for it. */
  lemma SeatSpares(s: Sys, fd: int, excl: int, role: Role, level: Level, events: Events)
    requires Sound(s) && excl in s.live
    ensures var r := Seat(s, fd, excl, role, level, events);
      r.slot != excl && excl in r.s.live && r.s.stamp[excl] == s.stamp[excl]
  {
    if FreeSlot(s) == NULL {
      EvictionFreesOneSlot(s, excl);
      EvictShape(s, excl);
    }
  }

  lemma JoinBase(s: Sys, i: int, k: int)
    requires Base(s) && IsSlot(i) && IsSlot(k) && i != k
    ensures Base(Join(s, i, k))
  {
    SoftBase(s, Join(s, i, k), {});
  }

  lemma DialledBase(s: Sys, i: int, fd: int)
    requires Base(s) && i in s.live && Fresh(s, fd)
    ensures var seat := Seat(OpenFd(s, fd), fd, i, Endpoint, Connecting, INOUT);
      Base(seat.s) && seat.slot != i && Base(Join(seat.s, i, seat.slot))
  {
    var o := OpenFd(s, fd);
    OpenBase(s, fd);
    SeatBase(o, fd, i, Endpoint, Connecting, INOUT);
    SeatSpares(o, fd, i, Endpoint, Connecting, INOUT);
    var seat := Seat(o, fd, i, Endpoint, Connecting, INOUT);
    JoinBase(seat.s, i, seat.slot);
  }

  lemma SetupEndpointBase(s: Sys, i: int, e: Env)
    requires Base(s) && i in s.live
    ensures Base(SetupEndpoint(s, i, e).s)
  {
    match e.dialing
    case NoSocket =>
    case Refused(fd) =>
      if Fresh(s, fd) {
        OpenBase(s, fd);
        AbandonBase(CloseFd(OpenFd(s, fd), fd), i, {});
      }
    case Pending(fd) =>
      if Fresh(s, fd) {
        DialledBase(s, i, fd);
      }
  }

  lemma PutBase(s: Sys, i: int, x: Stream)
    requires Base(s) && i in s.live
    requires x.role == s.st[i].role && x.fd == s.st[i].fd && x.pollref == s.st[i].pollref
    requires x.levents == s.st[i].levents && x.neighbour == s.st[i].neighbour
    ensures Base(Put(s, i, x)) && i in Put(s, i, x).live
  {
    SoftBase(s, Put(s, i, x), {});
  }

  lemma RespondBase(s: Sys, i: int, reaction: Reaction, e: Env)
    requires Base(s) && i in s.live
    ensures Base(Respond(s, i, reaction, e).s)
  {
    match reaction
    case Hang => AbandonBase(s, i, {});
    case Wait(_) =>
    case Reply(level, bytes) => PutBase(s, i, Answer(s.st[i], level, bytes));
    case Dial(request) =>
      if request.Host? && !e.resolved {
        AbandonBase(s, i, {});
      } else {
        SetupEndpointBase(s, i, e);
      }
  }

  lemma HandleSocksBase(s: Sys, i: int, e: Env)
    requires Base(s) && i in s.live
    ensures Base(HandleSocks(s, i, e).s)
  {
    var me := s.st[i];
    if me.revents.rd {
      PutBase(s, i, Read(me));
      RespondBase(Put(s, i, Read(me)), i, Receive(me.level, me.queue, Chunk(me)), e);
    } else {
      AbandonBase(s, i, {});
    }
  }

  lemma ForwardBase(s: Sys, i: int, e: Env)
    requires Base(s) && i in s.live && Forwards(s, i, e)
    ensures Base(HandleEvents(s, i, e).s)
  {
    SoftBase(s, HandleEvents(s, i, e).s, {});
  }

  lemma PromoteBase(s: Sys, i: int)
    requires Base(s) && i in s.live && s.st[i].neighbour != NULL
    ensures Base(Promote(s, i))
  {
    SoftBase(s, Promote(s, i), {});
  }

  lemma HandleEventsBase(s: Sys, i: int, e: Env)
    requires Base(s) && i in s.live
    ensures Base(HandleEvents(s, i, e).s)
  {
    var me := s.st[i];
    AbandonBase(s, i, {});
    if Forwards(s, i, e) {
      ForwardBase(s, i, e);
    } else if Drains(me) {
      if DrainQueue(me, e).Some? {
        PutBase(s, i, DrainQueue(me, e).value);
      }
    } else {
      match me.role
      case Listener => HandleNewStreamBase(s, i, e);
      case Client => HandleSocksBase(s, i, e);
      case Endpoint =>
        if me.neighbour != NULL {
          PromoteBase(s, i);
        }
      case Invalid =>
    }
  }

  lemma ReactBase(s: Sys, i: int, e: Env)
    requires Base(s) && i in s.live
    ensures Base(React(s, i, e).s)
  {
    AbandonBase(s, i, {});
    HandleEventsBase(s, i, e);
  }

  /** One turn of the loop keeps the base invariant, whatever the outside world does. */
  lemma VisitBase(s: Sys, i: int, e: Env)
    requires Base(s) && i in s.live
    ensures Base(Visit(s, i, e).s)
  {
    ArriveSound(s, e.arrivals);
    SoftBase(s, Arrive(s, e.arrivals), {});
    ReactBase(Arrive(s, e.arrivals), i, e);
  }
}
