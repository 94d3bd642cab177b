/**
 * Where the guarantees end.  The source keeps no account of evictions and does not look at what it
 * evicts.  These are the exact conditions under which a turn evicts the saved successor of the walk
 * or a stale stream.
 */
module Limits {
  import opened LiveLists
  import opened Socks
  import opened Streams
  import opened Handlers
  import opened BaseInvariant
  import opened Relations
  import opened Steps
  import opened Walks

  // ---------------------------------------------------------------------------------------------
  // One eviction
  // ---------------------------------------------------------------------------------------------

  /** force_cleanup keeps the relation graph exactly when its victim is not stale. */
  lemma EvictionSafeExactlyWhen(s: Sys, excl: int)
    requires Shape(s) && Related(s) && PairsSafe(s)
    ensures Shape(Evict(s, excl))
    ensures Related(Evict(s, excl)) <==> !Stale(s, Victim(s, excl))
  {
    EvictShape(s, excl);
    if Stale(s, Victim(s, excl)) {
      var w := StaleEvictionTears(s, excl);
      TornUnrelated(Evict(s, excl), w);
    } else {
      EvictRelated(s, excl);
    }
  }

  /** A stream with events to handle is nobody's stale neighbour. */
  lemma StaleNamesNewcomer(s: Sys, v: int)
    requires Shape(s) && Related(s) && v in s.live && Stale(s, v)
    ensures !s.st[s.st[v].neighbour].revents.Any()
  {
    assert RelatedAt(s, v);
  }

  // ---------------------------------------------------------------------------------------------
  // The saved successor
  // ---------------------------------------------------------------------------------------------

  /** The chunk a client has received completes its request, and its destination is known. */
  predicate Completes(x: Stream, e: Env) {
    && x.level == Req && x.revents.rd
    && Receive(Req, x.queue, Chunk(x)).Dial? && (Receive(Req, x.queue, Chunk(x)).request.Host? ==> e.resolved)
  }

  /** A client completes its request, and the endpoint can be dialled. */
  predicate Dials(x: Stream, os: Os, e: Env) {
    && x.role == Client && !x.abandoned && !x.revents.err && !x.revents.hup && !Drains(x) && Completes(x, e)
    && e.dialing.Pending? && e.dialing.fd >= 0 && e.dialing.fd !in os.fds.open
  }

  /** In a full pool a client dials whose successor in the list is the stream that must make room. */
  predicate HitGuard(s: Sys, cur: int, e: Env)
    requires Shape(s)
  {
    && FreeSlot(s) == NULL && IsSlot(cur)
    && Dials(Arrive(s, e.arrivals).st[cur], s.os, e)
    && NextOf(s.live, cur) != NULL && Victim(s, cur) == NextOf(s.live, cur)
  }

  lemma SameVictim(s: Sys, t: Sys, excl: int)
    requires Shape(s) && Shape(t) && t.live == s.live
    requires forall i :: IsSlot(i) ==> t.st[i].abandoned == s.st[i].abandoned && t.st[i].role == s.st[i].role
    ensures Victim(t, excl) == Victim(s, excl)
  {
    assert AbandonedExcept(t, excl) == AbandonedExcept(s, excl);
    assert PairedExcept(t, excl) == PairedExcept(s, excl);
  }

  /** Dialling is the only way for a client to evict, and in a full pool it does. */
  lemma DiallingVictim(s: Sys, i: int, e: Env)
    requires Base(s) && i in s.live
    ensures var r := SetupEndpoint(s, i, e);
      if e.dialing.Pending? && Fresh(s, e.dialing.fd) && FreeSlot(s) == NULL then r.victim == Victim(s, i) && r.ok
      else r.victim == NULL
  {
    if e.dialing.Pending? && Fresh(s, e.dialing.fd) {
      OpenBase(s, e.dialing.fd);
      SameVictim(s, OpenFd(s, e.dialing.fd), i);
    }
  }

  lemma ClientVictim(s: Sys, i: int, e: Env)
    requires Base(s) && i in s.live && s.st[i].role == Client && !s.st[i].abandoned
    ensures var r := React(s, i, e);
      if Dials(s.st[i], s.os, e) && FreeSlot(s) == NULL then r.victim == Victim(s, i) && r.ok else r.victim == NULL
  {
    var me := s.st[i];
    if me.revents.Any() && !me.revents.err && !me.revents.hup && !Forwards(s, i, e) && !Drains(me) {
      SocksVictim(s, i, e);
    }
  }

  lemma CompletingDials(s: Sys, i: int, e: Env)
    requires Sound(s) && i in s.live
    ensures Sound(Put(s, i, Read(s.st[i])))
    ensures if Completes(s.st[i], e) then HandleSocks(s, i, e) == SetupEndpoint(Put(s, i, Read(s.st[i])), i, e)
            else HandleSocks(s, i, e).victim == NULL
  {
    assert IsSlot(i);
    if HandleSocks(s, i, e).victim != NULL {
      OnlyDiallingEvicts(s, i, e);
    }
  }

  lemma SocksVictim(s: Sys, i: int, e: Env)
    requires Base(s) && i in s.live && s.st[i].role == Client && !s.st[i].abandoned
    requires !s.st[i].revents.err && !s.st[i].revents.hup && !Drains(s.st[i])
    ensures var r := HandleSocks(s, i, e);
      if Dials(s.st[i], s.os, e) && FreeSlot(s) == NULL then r.victim == Victim(s, i) && r.ok else r.victim == NULL
  {
    CompletingDials(s, i, e);
    if Completes(s.st[i], e) {
      var t := Put(s, i, Read(s.st[i]));
      PutBase(s, i, Read(s.st[i]));
      DiallingVictim(t, i, e);
      SameVictim(s, t, i);
    }
  }

  lemma ReactVictim(s: Sys, cur: int, e: Env)
    requires Base(s) && cur in s.live && NextOf(s.live, cur) != NULL
    ensures var r := React(s, cur, e);
      if Dials(s.st[cur], s.os, e) && FreeSlot(s) == NULL then r.victim == Victim(s, cur) && r.ok else r.victim == NULL
  {
    var me := s.st[cur];
    if me.role == Listener {
      ListenerLast(s, cur);
    } else if me.role == Client && !me.abandoned {
      ClientVictim(s, cur, e);
    }
  }

  /**
   * A turn evicts the saved successor exactly when it is that of a client which completes its request
   * and dials, the pool is full, and the successor is the stream that force_cleanup takes.
   */
  lemma HitExactlyWhen(s: Sys, cur: int, e: Env)
    requires Base(s) && cur in s.live
    ensures var r := Visit(s, cur, e);
      NextOf(s.live, cur) != NULL && NextOf(s.live, cur) == r.victim <==> HitGuard(s, cur, e)
    ensures HitGuard(s, cur, e) ==> Visit(s, cur, e).ok
  {
    ArriveSound(s, e.arrivals);
    var a := Arrive(s, e.arrivals);
    SoftBase(s, a, {});
    SameVictim(s, a, cur);
    if NextOf(s.live, cur) != NULL {
      ReactVictim(a, cur, e);
    }
  }

  lemma HitTakesHead(s: Sys, cur: int, r: Outcome)
    requires Shape(s) && cur in s.live && Stepped(s, cur, r) && r.victim != NULL
    ensures r.s.live == [r.victim] + Sieve(s.live, {r.victim}) && r.s.live[0] == r.victim && cur in r.s.live
  {
  }

  /**
   * Then the slot of the saved successor is reused at once as the new head, so the walk goes on from
   * the newest stream and comes by every stream that is still listed, again.
   */
  lemma HitRestartsWalk(s: Sys, cur: int, e: Env)
    requires Base(s) && cur in s.live && HitGuard(s, cur, e)
    ensures var r := Visit(s, cur, e);
      && r.s.live == [r.victim] + Sieve(s.live, {r.victim})
      && From(r.s.live, NextOf(s.live, cur)) == r.s.live
      && cur in r.s.live
  {
    HitExactlyWhen(s, cur, e);
    VisitStep(s, cur, e);
    HitTakesHead(s, cur, Visit(s, cur, e));
  }

  /** Somebody's turn in the walk evicts the saved successor. */
  ghost predicate Hits(turns: seq<Turn>) {
    exists t :: t in turns && Shape(t.before) && HitGuard(t.before, t.slot, t.e)
  }

  /** So a walk visits each stream once and in order exactly when no turn of it is such a turn. */
  lemma {:induction false} WalkHitExactlyWhen(s: Sys, cur: int, visits: seq<Env>)
    requires Base(s) && (cur == NULL || cur in s.live)
    ensures Walk(s, cur, visits).hit <==> Hits(Walk(s, cur, visits).turns)
    decreases Potential(s.st), |From(s.live, cur)|
  {
    if cur != NULL {
      WalkProgress(s, cur, Next(visits));
      WalkTurn(s, cur, visits);
      HitExactlyWhen(s, cur, Next(visits));
      var r := Visit(s, cur, Next(visits));
      var t := Turn(cur, s, Next(visits));
      if r.ok {
        HitsMore(t, Walk(r.s, NextOf(s.live, cur), Rest(visits)).turns);
        WalkHitExactlyWhen(r.s, NextOf(s.live, cur), Rest(visits));
      } else {
        HitsOnly(t);
      }
    }
  }

  lemma HitsOnly(t: Turn)
    requires Shape(t.before)
    ensures Hits([t]) <==> HitGuard(t.before, t.slot, t.e)
  {
    assert t in [t];
  }

  lemma HitsMore(t: Turn, turns: seq<Turn>)
    requires Shape(t.before)
    ensures Hits([t] + turns) <==> HitGuard(t.before, t.slot, t.e) || Hits(turns)
  {
    assert t in [t] + turns;
    assert forall u :: u in turns ==> u in [t] + turns;
  }

  // ---------------------------------------------------------------------------------------------
  // Stale streams
  // ---------------------------------------------------------------------------------------------

  /** The listener accepts a connection. */
  predicate Accepts(x: Stream, os: Os, e: Env) {
    && x.role == Listener && !x.abandoned && x.revents.rd && !x.revents.err && !x.revents.hup
    && e.accepted >= 0 && e.accepted !in os.fds.open && e.nonblocking
  }

  /** In a full pool a connection is accepted or an endpoint dialled, and the stream that must make room is stale. */
  predicate TearGuard(s: Sys, i: int, e: Env)
    requires Shape(s)
  {
    && FreeSlot(s) == NULL && IsSlot(i)
    && var x := Arrive(s, e.arrivals).st[i];
       || (Dials(x, s.os, e) && Stale(s, Victim(s, i)))
       || (Accepts(x, s.os, e) && Stale(s, Victim(s, NULL)))
  }

  lemma ListenerVictim(s: Sys, i: int, e: Env)
    requires Good(s) && i in s.live && s.st[i].role == Listener && !s.st[i].abandoned
    ensures var r := React(s, i, e);
      if Accepts(s.st[i], s.os, e) && FreeSlot(s) == NULL then r.victim == Victim(s, NULL) else r.victim == NULL
  {
    assert RelatedAt(s, i);
    if Accepts(s.st[i], s.os, e) {
      OpenBase(s, e.accepted);
      SameVictim(s, OpenFd(s, e.accepted), NULL);
    }
  }

  lemma TearReact(s: Sys, i: int, e: Env)
    requires Good(s) && i in s.live
    ensures var x := s.st[i];
      Stale(s, React(s, i, e).victim) <==>
        FreeSlot(s) == NULL && ((Dials(x, s.os, e) && Stale(s, Victim(s, i))) || (Accepts(x, s.os, e) && Stale(s, Victim(s, NULL))))
  {
    var x := s.st[i];
    if x.role == Listener && !x.abandoned {
      ListenerVictim(s, i, e);
    } else if x.role == Client && !x.abandoned {
      ClientVictim(s, i, e);
    }
  }

  lemma StaleVictimExactlyWhen(s: Sys, i: int, e: Env)
    requires Good(s) && i in s.live
    ensures Stale(s, Visit(s, i, e).victim) <==> TearGuard(s, i, e)
  {
    var a := Arrive(s, e.arrivals);
    ArriveGood(s, e.arrivals, Visit(s, i, e).victim);
    ArriveSound(s, e.arrivals);
    TearReact(a, i, e);
    SameVictim(s, a, i);
    SameVictim(s, a, NULL);
    SameStale(s, a, Victim(s, i));
    SameStale(s, a, Victim(s, NULL));
  }

  /**
   * One turn of the event loop keeps the relation graph, the hand-off and the account of forwarded
   * bytes exactly when it is not one that evicts a stale stream.
   */
  lemma TurnGoodExactlyWhen(s: Sys, i: int, e: Env)
    requires Good(s) && i in s.live
    ensures Base(Visit(s, i, e).s) && (Good(Visit(s, i, e).s) <==> !TearGuard(s, i, e))
    ensures Stale(s, Visit(s, i, e).victim) <==> TearGuard(s, i, e)
  {
    VisitGood(s, i, e);
    StaleVictimExactlyWhen(s, i, e);
  }

  ghost predicate Tears(turns: seq<Turn>) {
    exists t :: t in turns && Shape(t.before) && TearGuard(t.before, t.slot, t.e)
  }

  lemma TearsOnly(t: Turn)
    requires Shape(t.before)
    ensures Tears([t]) <==> TearGuard(t.before, t.slot, t.e)
  {
    assert t in [t];
  }

  lemma TearsMore(t: Turn, turns: seq<Turn>)
    requires Shape(t.before)
    ensures Tears([t] + turns) <==> TearGuard(t.before, t.slot, t.e) || Tears(turns)
  {
    assert t in [t] + turns;
    assert forall u :: u in turns ==> u in [t] + turns;
  }

  lemma {:induction false} WalkStaleExactlyWhen(s: Sys, cur: int, visits: seq<Env>)
    requires Good(s) && (cur == NULL || cur in s.live)
    ensures Walk(s, cur, visits).stale <==> Tears(Walk(s, cur, visits).turns)
    decreases Potential(s.st), |From(s.live, cur)|
  {
    if cur != NULL {
      WalkProgress(s, cur, Next(visits));
      WalkTurn(s, cur, visits);
      TurnGoodExactlyWhen(s, cur, Next(visits));
      var r := Visit(s, cur, Next(visits));
      var t := Turn(cur, s, Next(visits));
      if !r.ok {
        TearsOnly(t);
      } else {
        TearsMore(t, Walk(r.s, NextOf(s.live, cur), Rest(visits)).turns);
        if !Stale(s, r.victim) {
          WalkStaleExactlyWhen(r.s, NextOf(s.live, cur), Rest(visits));
        }
      }
    }
  }

  /** So pairs are related and safe all along a walk exactly when no turn of it is such a turn. */
  lemma WalkGoodExactlyWhen(s: Sys, cur: int, visits: seq<Env>)
    requires Good(s) && (cur == NULL || cur in s.live)
    ensures GoodAlong(Walk(s, cur, visits)) <==> !Tears(Walk(s, cur, visits).turns)
  {
    WalkGood(s, cur, visits);
    WalkStaleExactlyWhen(s, cur, visits);
  }
}
