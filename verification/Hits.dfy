/**
 * What a hit costs.  A client whose request evicts the saved successor gets another turn in the same
 * walk, with the event of its request still reported, and is dropped in it.
 */
module Hits {
  import opened Bytes
  import opened PollEvents
  import opened LiveLists
  import opened Socks
  import opened Streams
  import opened Handlers
  import opened BaseInvariant
  import opened Relations
  import opened Steps
  import opened Walks
  import opened Handshakes
  import opened Limits

  // ---------------------------------------------------------------------------------------------
  // Promotion
  // ---------------------------------------------------------------------------------------------

  /** The stream in slot `x` forwards only if one there did so before. */
  ghost predicate NoneStarts(s: Sys, t: Sys, x: int)
    requires |s.st| == POOL_SIZE && |t.st| == POOL_SIZE
  {
    IsSlot(x) && t.st[x].level == Forwarding ==> s.st[x].level == Forwarding
  }

  lemma AbandonStartsNone(s: Sys, i: int, x: int)
    requires Shape(s) && IsSlot(i)
    ensures |Abandon(s, i).st| == POOL_SIZE && NoneStarts(s, Abandon(s, i), x)
  {
  }

  lemma EvictStartsNone(s: Sys, excl: int, x: int)
    requires Shape(s)
    ensures |Evict(s, excl).st| == POOL_SIZE && NoneStarts(s, Evict(s, excl), x)
  {
    EvictShape(s, excl);
    if Victim(s, excl) != NULL {
      AbandonStartsNone(s, Victim(s, excl), x);
    }
  }

  lemma AdmitStartsNone(s: Sys, fd: int, role: Role, level: Level, events: Events, x: int)
    requires Shape(s) && FreeSlot(s) != NULL && level != Forwarding
    ensures NoneStarts(s, Admit(s, fd, role, level, events), x)
  {
  }

  lemma SeatStartsNone(s: Sys, fd: int, excl: int, role: Role, level: Level, events: Events, x: int)
    requires Sound(s) && level != Forwarding
    ensures NoneStarts(s, Seat(s, fd, excl, role, level, events).s, x)
  {
    if FreeSlot(s) == NULL {
      EvictionFreesOneSlot(s, excl);
      EvictStartsNone(s, excl, x);
      AdmitStartsNone(Evict(s, excl), fd, role, level, events, x);
    } else {
      AdmitStartsNone(s, fd, role, level, events, x);
    }
  }

  lemma DialledStartsNone(s: Sys, i: int, fd: int, x: int)
    requires Base(s) && i in s.live && Fresh(s, fd)
    ensures Sound(OpenFd(s, fd))
    ensures var seat := Seat(OpenFd(s, fd), fd, i, Endpoint, Connecting, INOUT);
      NoneStarts(s, Join(seat.s, i, seat.slot), x)
  {
    OpenBase(s, fd);
    SeatStartsNone(OpenFd(s, fd), fd, i, Endpoint, Connecting, INOUT, x);
  }

  lemma SetupEndpointStartsNone(s: Sys, i: int, e: Env, x: int)
    requires Base(s) && i in s.live
    ensures |SetupEndpoint(s, i, e).s.st| == POOL_SIZE && NoneStarts(s, SetupEndpoint(s, i, e).s, x)
  {
    match e.dialing
    case NoSocket =>
    case Refused(fd) =>
      if Fresh(s, fd) {
        AbandonStartsNone(CloseFd(OpenFd(s, fd), fd), i, x);
      }
    case Pending(fd) =>
      if Fresh(s, fd) {
        DialledStartsNone(s, i, fd, x);
      }
  }

  lemma HandleSocksStartsNone(s: Sys, i: int, e: Env, x: int)
    requires Base(s) && i in s.live
    ensures |HandleSocks(s, i, e).s.st| == POOL_SIZE && NoneStarts(s, HandleSocks(s, i, e).s, x)
  {
    var me := s.st[i];
    if me.revents.rd {
      PutBase(s, i, Read(me));
      var t := Put(s, i, Read(me));
      SetupEndpointStartsNone(t, i, e, x);
      AbandonShape(t, i);
      RepliesStartNone(me.level, me.queue, Chunk(me));
    }
  }

  lemma RepliesStartNone(level: Level, queue: seq<byte>, chunk: seq<byte>)
    ensures var reaction := Receive(level, queue, chunk); reaction.Reply? ==> reaction.level != Forwarding
  {
  }

  lemma HandleNewStreamStartsNone(s: Sys, i: int, e: Env, x: int)
    requires Base(s) && i in s.live
    ensures |HandleNewStream(s, i, e).s.st| == POOL_SIZE && NoneStarts(s, HandleNewStream(s, i, e).s, x)
  {
    if s.st[i].revents.rd && Fresh(s, e.accepted) && e.nonblocking {
      OpenBase(s, e.accepted);
      SeatStartsNone(OpenFd(s, e.accepted), e.accepted, NULL, Client, Ver, IN, x);
    }
  }

  lemma HandleEventsStarts(s: Sys, i: int, e: Env, x: int)
    requires Base(s) && i in s.live && x != i
    ensures |HandleEvents(s, i, e).s.st| == POOL_SIZE
    ensures NoneStarts(s, HandleEvents(s, i, e).s, x) || s.st[i].neighbour == x
  {
    AbandonStartsNone(s, i, x);
    if !Forwards(s, i, e) && !Drains(s.st[i]) {
      HandleSocksStartsNone(s, i, e, x);
      HandleNewStreamStartsNone(s, i, e, x);
    }
  }

  /** A stream other than `i` starts forwarding in its turn only as its neighbour. */
  lemma OnlyNeighbourStarts(s: Sys, i: int, e: Env, x: int)
    requires Base(s) && i in s.live && x != i
    ensures |React(s, i, e).s.st| == POOL_SIZE
    ensures NoneStarts(s, React(s, i, e).s, x) || (!s.st[i].abandoned && s.st[i].revents.Any() && s.st[i].neighbour == x)
  {
    AbandonStartsNone(s, i, x);
    HandleEventsStarts(s, i, e, x);
  }

  // ---------------------------------------------------------------------------------------------
  // Doomed clients
  // ---------------------------------------------------------------------------------------------

  /** The stream that took slot `i` as the `m`-th is no longer in service. */
  predicate Lost(s: Sys, i: int, m: nat) {
    !(i in s.live && 0 <= i < |s.st| && 0 <= i < |s.stamp| && s.stamp[i] == m && !s.st[i].abandoned)
  }

  /** A client that awaits its endpoint, with something to read reported for it and nothing for the endpoint. */
  predicate Doomed(s: Sys, i: int, m: nat) {
    && |s.st| == POOL_SIZE && |s.stamp| == POOL_SIZE && IsSlot(i) && i in s.live && s.stamp[i] == m
    && s.st[i].role == Client && s.st[i].level == Pass && !s.st[i].abandoned
    && s.st[i].revents.rd && !s.st[i].revents.wr
    && IsSlot(s.st[i].neighbour) && !s.st[s.st[i].neighbour].revents.Any()
  }

  /** Its own turn abandons it. */
  lemma DoomedTurn(s: Sys, i: int, e: Env, m: nat)
    requires Base(s) && Doomed(s, i, m)
    ensures Lost(Visit(s, i, e).s, i, m)
  {
    ArriveSound(s, e.arrivals);
    var a := Arrive(s, e.arrivals);
    var me := a.st[i];
    if !me.revents.err && !me.revents.hup {
      assert React(a, i, e) == HandleSocks(a, i, e);
      assert Receive(Pass, me.queue, Chunk(me)) == Hang;
    }
  }

  lemma LostStays(s: Sys, i: int, m: nat, j: int, r: Outcome)
    requires Shape(s) && j in s.live && Stepped(s, j, r) && m < s.clock && Lost(s, i, m)
    ensures Lost(r.s, i, m) && m < r.s.clock
  {
    if i in r.s.live && IsSlot(i) && |r.s.st| == POOL_SIZE && !Steady(s, r.s) {
      assert i in s.live || r.s.stamp[i] == s.clock;
    }
  }

  lemma NeighbourUnheard(s: Sys, j: int, r: Outcome, k: int)
    requires Shape(s) && j in s.live && Stepped(s, j, r) && IsSlot(k) && !s.st[k].revents.Any()
    ensures |r.s.st| == POOL_SIZE && !r.s.st[k].revents.Any()
  {
  }

  lemma SameTenant(s: Sys, j: int, r: Outcome, i: int, m: nat)
    requires Shape(s) && j in s.live && Stepped(s, j, r) && m < s.clock && !Lost(r.s, i, m) && Shape(r.s)
    ensures i in s.live && IsSlot(i) && s.stamp[i] == m && Later(s.st[i], r.s.st[i]) && i != r.victim
  {
    assert IsSlot(i);
  }

  /** The turn of another stream leaves it doomed, or takes it out of service. */
  lemma DoomedStays(s: Sys, j: int, e: Env, i: int, m: nat)
    requires Good(s) && Shaken(s) && j in s.live && i != j && Doomed(s, i, m) && m < s.clock
    requires Visit(s, j, e).ok && !Stale(s, Visit(s, j, e).victim)
    ensures Lost(Visit(s, j, e).s, i, m) || Doomed(Visit(s, j, e).s, i, m)
  {
    var r := Visit(s, j, e);
    VisitGood(s, j, e);
    VisitStep(s, j, e);
    if !Lost(r.s, i, m) {
      SameTenant(s, j, r, i, m);
      NeighbourUnheard(s, j, r, s.st[i].neighbour);
      StillPassing(s, j, e, i);
    }
  }

  /** A client that awaits an endpoint for which nothing is reported. */
  predicate Passing(s: Sys, i: int)
    requires |s.st| == POOL_SIZE && IsSlot(i)
  {
    && s.st[i].role == Client && s.st[i].level == Pass && !s.st[i].abandoned
    && IsSlot(s.st[i].neighbour) && !s.st[s.st[i].neighbour].revents.Any()
  }

  /** It goes on awaiting that endpoint, unless it is abandoned. */
  lemma StillPassing(s: Sys, j: int, e: Env, i: int)
    requires Good(s) && Shaken(s) && j in s.live && i in s.live && i != j && Visit(s, j, e).ok && IsSlot(i) && Passing(s, i)
    requires var t := Visit(s, j, e).s; |t.st| == POOL_SIZE && i in t.live && Later(s.st[i], t.st[i]) && !t.st[i].abandoned
    ensures var y := Visit(s, j, e).s.st[i]; y.level == Pass && y.neighbour == s.st[i].neighbour
  {
    ArriveGood(s, e.arrivals, NULL);
    ArriveSound(s, e.arrivals);
    ArriveShaken(s, e.arrivals, []);
    RelatedNeverStrays(s, j, e);
    assert IsSlot(s.st[i].neighbour);
    PassingReacts(Arrive(s, e.arrivals), j, e, i);
  }

  lemma PassingReacts(s: Sys, j: int, e: Env, i: int)
    requires Good(s) && Shaken(s) && j in s.live && i in s.live && i != j && IsSlot(j) && React(s, j, e).ok && IsSlot(i) && Passing(s, i)
    requires !StraysNow(s, j, e)
    requires var t := React(s, j, e).s; |t.st| == POOL_SIZE && i in t.live && Later(s.st[i], t.st[i]) && !t.st[i].abandoned
    ensures var y := React(s, j, e).s.st[i]; y.level == Pass && y.neighbour == s.st[i].neighbour
  {
    assert ShakenAt(s.st[j]) && RelatedAt(s, j);
    OnlyNeighbourStarts(s, j, e, i);
    ReactShaken(s, j, e);
    assert Shaking(React(s, j, e).s.st[i]);
  }

  // ---------------------------------------------------------------------------------------------
  // The rest of the walk
  // ---------------------------------------------------------------------------------------------

  /** The stream is out of service, or doomed and still to come. */
  ghost predicate Fated(s: Sys, cur: int, i: int, m: nat)
    requires Shape(s)
  {
    m < s.clock && (Lost(s, i, m) || (Doomed(s, i, m) && i in From(s.live, cur)))
  }

  /** After a hit everybody who is listed is still to come. */
  lemma ToComeAfterHit(s: Sys, cur: int, r: Outcome, i: int)
    requires Shape(s) && cur in s.live && Stepped(s, cur, r) && r.victim != NULL && i in s.live && i != r.victim
    ensures i in From(r.s.live, r.victim)
  {
    HitTakesHead(s, cur, r);
  }

  lemma StillToCome(s: Sys, cur: int, r: Outcome, i: int)
    requires Shape(s) && cur in s.live && Stepped(s, cur, r) && Shape(r.s)
    requires i in From(s.live, cur) && i != cur && i != r.victim
    ensures i in From(r.s.live, NextOf(s.live, cur))
  {
    var next := NextOf(s.live, cur);
    if next != NULL && next == r.victim {
      ToComeAfterHit(s, cur, r, i);
    } else {
      RestOfWalk(s, cur, r);
      InTheRest(cur, From(s.live, next), r.victim, i);
    }
  }

  lemma InTheRest(cur: int, rest: seq<int>, v: int, i: int)
    requires i in [cur] + rest && i != cur && i != v
    ensures i in Sieve(rest, {v})
  {
  }

  lemma FatedStays(s: Sys, cur: int, e: Env, i: int, m: nat)
    requires Good(s) && Shaken(s) && cur in s.live && Fated(s, cur, i, m)
    requires Visit(s, cur, e).ok && !Stale(s, Visit(s, cur, e).victim)
    ensures Good(Visit(s, cur, e).s) && Shaken(Visit(s, cur, e).s) && Fated(Visit(s, cur, e).s, NextOf(s.live, cur), i, m)
  {
    var r := Visit(s, cur, e);
    VisitGood(s, cur, e);
    VisitStep(s, cur, e);
    RelatedNeverStrays(s, cur, e);
    VisitShaken(s, cur, e, [], []);
    if Lost(s, i, m) {
      LostStays(s, i, m, cur, r);
    } else {
      ClockForward(s, cur, r);
      if cur == i {
        DoomedTurn(s, i, e, m);
      } else {
        DoomedStays(s, cur, e, i, m);
        if !Lost(r.s, i, m) {
          SameTenant(s, cur, r, i, m);
          StillToCome(s, cur, r, i);
        }
      }
    }
  }

  lemma ClockForward(s: Sys, j: int, r: Outcome)
    requires Shape(s) && j in s.live && Stepped(s, j, r)
    ensures s.clock <= r.s.clock
  {
  }

  lemma {:induction false} FatedIsLost(s: Sys, cur: int, visits: seq<Env>, i: int, m: nat)
    requires Good(s) && Shaken(s) && (cur == NULL || cur in s.live) && Fated(s, cur, i, m)
    requires var w := Walk(s, cur, visits); w.ok && !w.stale
    ensures Lost(Walk(s, cur, visits).s, i, m)
    decreases Potential(s.st), |From(s.live, cur)|
  {
    if cur == NULL {
      NullNotLive(s);
    } else {
      WalkProgress(s, cur, Next(visits));
      WalkTurn(s, cur, visits);
      FatedStays(s, cur, Next(visits), i, m);
      FatedIsLost(Visit(s, cur, Next(visits)).s, NextOf(s.live, cur), Rest(visits), i, m);
    }
  }

  // ---------------------------------------------------------------------------------------------
  // After a hit
  // ---------------------------------------------------------------------------------------------

  /** Right after a hit the client that dialled is doomed and listed, if it is still in service. */
  lemma HitDooms(s: Sys, cur: int, e: Env)
    requires Good(s) && Shaken(s) && cur in s.live && HitGuard(s, cur, e) && !Stale(s, Visit(s, cur, e).victim)
    ensures IsSlot(cur) && s.stamp[cur] < s.clock && Visit(s, cur, e).ok
    ensures Good(Visit(s, cur, e).s) && Shaken(Visit(s, cur, e).s)
    ensures Fated(Visit(s, cur, e).s, NextOf(s.live, cur), cur, s.stamp[cur])
  {
    var r := Visit(s, cur, e);
    HitExactlyWhen(s, cur, e);
    HitRestartsWalk(s, cur, e);
    VisitGood(s, cur, e);
    VisitStep(s, cur, e);
    ClockForward(s, cur, r);
    RelatedNeverStrays(s, cur, e);
    VisitShaken(s, cur, e, [], []);
    if !Lost(r.s, cur, s.stamp[cur]) {
      SameTenant(s, cur, r, cur, s.stamp[cur]);
      DiallerDoomed(s, cur, e);
    }
  }

  lemma DiallerDoomed(s: Sys, i: int, e: Env)
    requires Good(s) && Shaken(s) && i in s.live && HitGuard(s, i, e)
    requires var t := Visit(s, i, e).s; Shape(t) && i in t.live && t.stamp[i] == s.stamp[i] && !t.st[i].abandoned
    ensures Doomed(Visit(s, i, e).s, i, s.stamp[i])
  {
    ArriveShaken(s, e.arrivals, []);
    ArriveSound(s, e.arrivals);
    DialsDoomed(Arrive(s, e.arrivals), i, e, s.stamp[i]);
  }

  lemma DialsDoomed(s: Sys, i: int, e: Env, m: nat)
    requires Base(s) && Shaken(s) && i in s.live && Dials(s.st[i], s.os, e)
    requires var t := React(s, i, e).s; Shape(t) && i in t.live && t.stamp[i] == m && !t.st[i].abandoned
    ensures Doomed(React(s, i, e).s, i, m)
  {
    assert ShakenAt(s.st[i]) && IsSlot(i);
    ClientDials(s, i, e);
    PutBase(s, i, Read(s.st[i]));
    GrantedDoomed(Put(s, i, Read(s.st[i])), i, e.dialing.fd, m);
  }

  lemma ClientDials(s: Sys, i: int, e: Env)
    requires Sound(s) && i in s.live && Dials(s.st[i], s.os, e)
    ensures Sound(Put(s, i, Read(s.st[i]))) && React(s, i, e) == SetupEndpoint(Put(s, i, Read(s.st[i])), i, e)
  {
    CompletingDials(s, i, e);
    assert React(s, i, e) == HandleSocks(s, i, e);
  }

  lemma GrantedDoomed(s: Sys, i: int, fd: int, m: nat)
    requires Base(s) && i in s.live && Fresh(s, fd) && IsSlot(i)
    requires s.st[i].role == Client && s.st[i].revents.rd && !s.st[i].revents.wr
    ensures Sound(OpenFd(s, fd))
    ensures var seat := Seat(OpenFd(s, fd), fd, i, Endpoint, Connecting, INOUT);
      var t := Join(seat.s, i, seat.slot);
      i in t.live && |t.stamp| == POOL_SIZE && t.stamp[i] == m && !t.st[i].abandoned ==> Doomed(t, i, m)
  {
    OpenBase(s, fd);
    DialledOthers(s, i, fd);
    DialledNeighbour(s, i, fd);
  }

  lemma DialledNeighbour(s: Sys, i: int, fd: int)
    requires Base(s) && i in s.live && Fresh(s, fd)
    ensures Sound(OpenFd(s, fd))
    ensures var seat := Seat(OpenFd(s, fd), fd, i, Endpoint, Connecting, INOUT);
      !Join(seat.s, i, seat.slot).st[seat.slot].revents.Any() && seat.slot != i
  {
    OpenBase(s, fd);
    DialledBase(s, i, fd);
    SeatOthers(OpenFd(s, fd), fd, i, Endpoint, Connecting, INOUT);
  }

  /**
   * In a walk that ends without a severe error and evicts no stale stream, a client whose request
   * evicts the saved successor does not stay: at the end of the walk it is abandoned, or was evicted
   * itself.
   */
  lemma {:induction false} HitLosesClient(s: Sys, cur: int, visits: seq<Env>, t: Turn)
    requires Good(s) && Shaken(s) && (cur == NULL || cur in s.live)
    requires var w := Walk(s, cur, visits); w.ok && !w.stale && t in w.turns
    requires Shape(t.before) && IsSlot(t.slot) && HitGuard(t.before, t.slot, t.e)
    ensures Lost(Walk(s, cur, visits).s, t.slot, t.before.stamp[t.slot])
    decreases Potential(s.st), |From(s.live, cur)|
  {
    if cur != NULL {
      var e := Next(visits);
      var r := Visit(s, cur, e);
      WalkProgress(s, cur, e);
      WalkTurn(s, cur, visits);
      if t == Turn(cur, s, e) {
        HitDooms(s, cur, e);
        FatedIsLost(r.s, NextOf(s.live, cur), Rest(visits), cur, s.stamp[cur]);
      } else {
        VisitGood(s, cur, e);
        RelatedNeverStrays(s, cur, e);
        VisitShaken(s, cur, e, [], []);
        HitLosesClient(r.s, NextOf(s.live, cur), Rest(visits), t);
      }
    }
  }
}
