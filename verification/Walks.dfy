/**
 * The walk over the stream list in one event cycle (src/util.c:1179-1199).  The successor is saved
 * before the handler runs; handlers insert streams in front and may evict one.
 */
module Walks {
  import opened LiveLists
  import opened Streams
  import opened Handlers
  import opened BaseInvariant
  import opened Steps
  import opened Relations

  // ---------------------------------------------------------------------------------------------
  // The measure
  // ---------------------------------------------------------------------------------------------

  /** Handshake stages still ahead of all clients with events to handle. */
  function Potential(st: seq<Stream>): nat {
    if st == [] then 0 else Weight(st[0]) + Potential(st[1..])
  }

  lemma {:induction false} PotentialFalls(a: seq<Stream>, b: seq<Stream>)
    requires |a| == |b| && forall k :: 0 <= k < |a| ==> Weight(b[k]) <= Weight(a[k])
    ensures Potential(b) <= Potential(a)
    ensures (exists k :: 0 <= k < |a| && Weight(b[k]) < Weight(a[k])) ==> Potential(b) < Potential(a)
  {
    if a != [] {
      PotentialFalls(a[1..], b[1..]);
      if k :| 1 <= k < |a| && Weight(b[k]) < Weight(a[k]) {
        assert Weight(b[1..][k - 1]) < Weight(a[1..][k - 1]);
      }
    }
  }

  lemma SteppedPotential(s: Sys, i: int, r: Outcome)
    requires Shape(s) && i in s.live && Stepped(s, i, r)
    ensures |r.s.st| == POOL_SIZE && Potential(r.s.st) <= Potential(s.st)
    ensures r.victim != NULL && s.st[i].role != Listener ==> Potential(r.s.st) < Potential(s.st)
  {
    forall k | 0 <= k < POOL_SIZE
      ensures Weight(r.s.st[k]) <= Weight(s.st[k])
    {
      assert IsSlot(k);
    }
    PotentialFalls(s.st, r.s.st);
  }

  /** The listener is the oldest stream, so nothing follows it. */
  lemma ListenerLast(s: Sys, i: int)
    requires Sound(s) && i in s.live && s.st[i].role == Listener
    ensures NextOf(s.live, i) == NULL
  {
    FromNext(s.live, i, s.stamp);
    FromDescends(s.live, i, s.stamp);
  }

  /** What is left of the list from the saved successor on, after a turn that spared the successor. */
  lemma SteppedRest(s: Sys, i: int, r: Outcome, x: int)
    requires Shape(s) && i in s.live && Stepped(s, i, r)
    requires x in s.live && x != r.victim
    ensures x in r.s.live
    ensures From(r.s.live, x) == Sieve(From(s.live, x), {r.victim})
  {
    if Steady(s, r.s) {
      FromDescends(s.live, x, s.stamp);
      SieveNull(From(s.live, x), s.stamp);
    } else {
      FromSieve(s.live, x, {r.victim});
      FromCons(r.s.live[0], Sieve(s.live, {r.victim}), x);
    }
  }

  /** Every turn makes progress, even when the saved successor was evicted and its slot reused. */
  lemma WalkProgress(s: Sys, cur: int, e: Env)
    requires Base(s) && cur in s.live
    ensures var next := NextOf(s.live, cur);
      var r := Visit(s, cur, e);
      && Base(r.s)
      && (next != NULL ==> next in r.s.live)
      && Potential(r.s.st) <= Potential(s.st)
      && (next != NULL && next == r.victim ==> Potential(r.s.st) < Potential(s.st))
      && (next == NULL || next != r.victim ==> |From(r.s.live, next)| < |From(s.live, cur)|)
  {
    var next := NextOf(s.live, cur);
    var r := Visit(s, cur, e);
    VisitBase(s, cur, e);
    VisitStep(s, cur, e);
    SteppedPotential(s, cur, r);
    FromNext(s.live, cur, s.stamp);
    if next != NULL {
      if s.st[cur].role == Listener {
        ListenerLast(s, cur);
      }
      if next != r.victim {
        SteppedRest(s, cur, r, next);
      }
    } else {
      NullNotLive(r.s);
    }
  }

  lemma NullNotLive(s: Sys)
    requires Shape(s)
    ensures From(s.live, NULL) == []
  {
    assert !IsSlot(NULL);
  }

  // ---------------------------------------------------------------------------------------------
  // The walk
  // ---------------------------------------------------------------------------------------------

  /** A turn taken by a slot, the state just before it, and the outside world during it. */
  datatype Turn = Turn(slot: int, before: Sys, e: Env)

  /**
   * A walk: its final state, false after a severe error, whether an eviction hit a saved successor,
   * whether one took a stale stream, the turns taken, and the slots evicted before their turn.
   */
  datatype WalkResult = WalkResult(s: Sys, ok: bool, hit: bool, stale: bool, turns: seq<Turn>, lost: set<int>)

  /** The outside world of the next turn; once nothing is left to happen, nothing works. */
  function Next(visits: seq<Env>): Env {
    if visits == [] then Env([], -1, false, false, NoSocket, 0, -1) else visits[0]
  }

  function Rest(visits: seq<Env>): seq<Env> {
    if visits == [] then [] else visits[1..]
  }

  /** The walk ends after finitely many turns, whatever is evicted on the way. */
  function Walk(s: Sys, cur: int, visits: seq<Env>): WalkResult
    requires Base(s) && (cur == NULL || cur in s.live)
    decreases Potential(s.st), |From(s.live, cur)|
  {
    if cur == NULL then WalkResult(s, true, false, false, [], {})
    else
      WalkProgress(s, cur, Next(visits));
      var next := NextOf(s.live, cur);
      var r := Visit(s, cur, Next(visits));
      if !r.ok then WalkResult(r.s, false, false, Stale(s, r.victim), [Turn(cur, s, Next(visits))], {})
      else
        var w := Walk(r.s, next, Rest(visits));
        WalkResult(w.s, w.ok, w.hit || (next != NULL && next == r.victim), w.stale || Stale(s, r.victim), [Turn(cur, s, Next(visits))] + w.turns,
                   w.lost + (if r.victim in From(s.live, next) then {r.victim} else {}))
  }

  lemma {:induction false} WalkBase(s: Sys, cur: int, visits: seq<Env>)
    requires Base(s) && (cur == NULL || cur in s.live)
    ensures var w := Walk(s, cur, visits);
      Base(w.s) && w.s.evictions >= s.evictions && forall t :: t in w.turns ==> Base(t.before)
    decreases Potential(s.st), |From(s.live, cur)|
  {
    if cur != NULL {
      WalkProgress(s, cur, Next(visits));
      VisitStep(s, cur, Next(visits));
      var r := Visit(s, cur, Next(visits));
      if r.ok {
        WalkBase(r.s, NextOf(s.live, cur), Rest(visits));
      }
    }
  }

  // ---------------------------------------------------------------------------------------------
  // Who gets a turn
  // ---------------------------------------------------------------------------------------------

  function SlotsOf(turns: seq<Turn>): seq<int> {
    if turns == [] then [] else [turns[0].slot] + SlotsOf(turns[1..])
  }

  lemma {:induction false} SieveMore(l: seq<int>, a: set<int>, x: int)
    requires x !in l
    ensures Sieve(l, a + {x}) == Sieve(l, a)
  {
    if l != [] {
      SieveMore(l[1..], a, x);
    }
  }

  lemma SievedTurns(tail: seq<int>, cur: int, v: int, lost: set<int>)
    requires cur !in tail && forall x :: x in lost ==> x in tail
    ensures var all := lost + (if v in tail then {v} else {});
      && [cur] + Sieve(Sieve(tail, {v}), lost) == Sieve([cur] + tail, all)
      && (forall x :: x in all ==> x in [cur] + tail)
  {
    SieveTwice(tail, {v}, lost);
    assert {v} + lost == lost + {v};
    var all := lost + (if v in tail then {v} else {});
    if v !in tail {
      SieveMore(tail, lost, v);
      assert all == lost;
    }
    assert Sieve(tail, all) == Sieve(Sieve(tail, {v}), lost);
    assert cur !in all;
    assert ([cur] + tail)[1..] == tail;
  }

  /** What is left for the walk after a turn of `cur` that spared the saved successor. */
  lemma RestOfWalk(s: Sys, cur: int, r: Outcome)
    requires Shape(s) && cur in s.live && Stepped(s, cur, r) && Shape(r.s)
    requires var next := NextOf(s.live, cur); next == NULL || next != r.victim
    ensures var next := NextOf(s.live, cur);
      && From(r.s.live, next) == Sieve(From(s.live, next), {r.victim})
      && From(s.live, cur) == [cur] + From(s.live, next)
      && cur !in From(s.live, next)
  {
    var next := NextOf(s.live, cur);
    FromNext(s.live, cur, s.stamp);
    FromDescends(s.live, cur, s.stamp);
    DescendingHead(From(s.live, cur), s.stamp);
    NullNotLive(s);
    NullNotLive(r.s);
    if next != NULL {
      SteppedRest(s, cur, r, next);
    }
  }

  lemma RestOfTurns(s: Sys, cur: int, r: Outcome, lost: set<int>)
    requires Shape(s) && cur in s.live && Stepped(s, cur, r) && Shape(r.s)
    requires var next := NextOf(s.live, cur); next == NULL || next != r.victim
    requires forall x :: x in lost ==> x in From(r.s.live, NextOf(s.live, cur))
    ensures var next := NextOf(s.live, cur);
      var all := lost + (if r.victim in From(s.live, next) then {r.victim} else {});
      && [cur] + Sieve(From(r.s.live, next), lost) == Sieve(From(s.live, cur), all)
      && (forall x :: x in all ==> x in From(s.live, cur))
  {
    RestOfWalk(s, cur, r);
    SievedTurns(From(s.live, NextOf(s.live, cur)), cur, r.victim, lost);
  }

  /** One unfolding of the walk. */
  lemma WalkTurn(s: Sys, cur: int, visits: seq<Env>)
    requires Base(s) && cur in s.live
    ensures var r := Visit(s, cur, Next(visits));
      && Base(r.s) && Stepped(s, cur, r)
      && (NextOf(s.live, cur) != NULL ==> NextOf(s.live, cur) in r.s.live)
    ensures var r := Visit(s, cur, Next(visits));
      var next := NextOf(s.live, cur);
      var w := Walk(s, cur, visits);
      if !r.ok then w.s == r.s && !w.ok && !w.hit && w.stale == Stale(s, r.victim) && w.turns == [Turn(cur, s, Next(visits))] && w.lost == {}
      else
        var w' := Walk(r.s, next, Rest(visits));
        && w.s == w'.s && w.ok == w'.ok
        && w.hit == (w'.hit || (next != NULL && next == r.victim)) && w.stale == (w'.stale || Stale(s, r.victim))
        && w.turns == [Turn(cur, s, Next(visits))] + w'.turns
        && w.lost == w'.lost + (if r.victim in From(s.live, next) then {r.victim} else {})
  {
    assert !IsSlot(NULL);
    WalkProgress(s, cur, Next(visits));
    VisitStep(s, cur, Next(visits));
  }

  ghost predicate TurnsInOrder(w: WalkResult, list: seq<int>) {
    && SlotsOf(w.turns) <= Sieve(list, w.lost)
    && (w.ok ==> SlotsOf(w.turns) == Sieve(list, w.lost))
    && (forall x :: x in w.lost ==> x in list)
  }

  lemma OneMoreTurn(s: Sys, cur: int, e: Env, r: Outcome, w': WalkResult, w: WalkResult)
    requires Shape(s) && cur in s.live && Stepped(s, cur, r) && Shape(r.s)
    requires var next := NextOf(s.live, cur);
      && (next == NULL || next != r.victim)
      && TurnsInOrder(w', From(r.s.live, next))
      && w.ok == w'.ok && w.turns == [Turn(cur, s, e)] + w'.turns
      && w.lost == w'.lost + (if r.victim in From(s.live, next) then {r.victim} else {})
    ensures TurnsInOrder(w, From(s.live, cur))
  {
    RestOfTurns(s, cur, r, w'.lost);
    SlotsOfMore(Turn(cur, s, e), w'.turns);
  }

  lemma SlotsOfMore(t: Turn, turns: seq<Turn>)
    ensures SlotsOf([t] + turns) == [t.slot] + SlotsOf(turns)
  {
    assert ([t] + turns)[1..] == turns;
  }

  lemma OnlyTurn(s: Sys, cur: int, e: Env, w: WalkResult)
    requires cur in s.live && !w.ok && w.turns == [Turn(cur, s, e)] && w.lost == {}
    ensures TurnsInOrder(w, From(s.live, cur))
  {
    assert From(s.live, cur)[0] == cur;
    assert SlotsOf(w.turns) == [cur] + SlotsOf([]);
  }

  lemma {:induction false} InOrderWithoutHit(s: Sys, cur: int, visits: seq<Env>)
    requires Base(s) && (cur == NULL || cur in s.live) && !Walk(s, cur, visits).hit
    ensures TurnsInOrder(Walk(s, cur, visits), From(s.live, cur))
    decreases Potential(s.st), |From(s.live, cur)|
  {
    if cur == NULL {
      NullNotLive(s);
    } else {
      var next := NextOf(s.live, cur);
      var r := Visit(s, cur, Next(visits));
      WalkTurn(s, cur, visits);
      WalkProgress(s, cur, Next(visits));
      if r.ok {
        InOrderWithoutHit(r.s, next, Rest(visits));
        OneMoreTurn(s, cur, Next(visits), r, Walk(r.s, next, Rest(visits)), Walk(s, cur, visits));
      } else {
        OnlyTurn(s, cur, Next(visits), Walk(s, cur, visits));
      }
    }
  }

  lemma NoPrefix(a: seq<int>, b: seq<int>, x: int)
    requires x in a && x !in b
    ensures !(a <= b)
  {
  }

  lemma FirstSlot(s: Sys, cur: int, visits: seq<Env>)
    requires Base(s) && cur in s.live
    ensures cur in SlotsOf(Walk(s, cur, visits).turns)
  {
    WalkTurn(s, cur, visits);
    assert SlotsOf(Walk(s, cur, visits).turns)[0] == cur;
  }

  /** After a hit some slot is both given up and given a turn: its new tenant's. */
  lemma {:induction false} HitSeen(s: Sys, cur: int, visits: seq<Env>) returns (x: int)
    requires Base(s) && (cur == NULL || cur in s.live) && Walk(s, cur, visits).hit
    ensures x in Walk(s, cur, visits).lost && x in SlotsOf(Walk(s, cur, visits).turns)
    decreases Potential(s.st), |From(s.live, cur)|
  {
    var next := NextOf(s.live, cur);
    var r := Visit(s, cur, Next(visits));
    WalkTurn(s, cur, visits);
    WalkProgress(s, cur, Next(visits));
    var w' := Walk(r.s, next, Rest(visits));
    SlotsOfMore(Turn(cur, s, Next(visits)), w'.turns);
    if next != NULL && next == r.victim {
      x := next;
      FirstSlot(r.s, next, Rest(visits));
    } else {
      x := HitSeen(r.s, next, Rest(visits));
    }
  }

  /**
   * The walk gives a turn to every stream that was live when it began, in list order and once, except
   * those evicted before their turn, and to nothing inserted meanwhile; a severe error cuts this short.
   * That is so exactly when no eviction hits a saved successor.
   */
  lemma WalkVisitsEach(s: Sys, cur: int, visits: seq<Env>)
    requires Base(s) && (cur == NULL || cur in s.live)
    ensures TurnsInOrder(Walk(s, cur, visits), From(s.live, cur)) <==> !Walk(s, cur, visits).hit
  {
    var w := Walk(s, cur, visits);
    if w.hit {
      var x := HitSeen(s, cur, visits);
      NoPrefix(SlotsOf(w.turns), Sieve(From(s.live, cur), w.lost), x);
    } else {
      InOrderWithoutHit(s, cur, visits);
    }
  }

  /** The stream in slot `x` is the one it was, with the events reported for it. */
  ghost predicate SameStream(s: Sys, t: Sys, x: int)
    requires Shape(s) && Shape(t)
  {
    && x in s.live && x in t.live
    && t.stamp[x] == s.stamp[x] && t.st[x].revents == s.st[x].revents
  }

  lemma SameStreamStep(s: Sys, cur: int, r: Outcome, x: int)
    requires Shape(s) && cur in s.live && Stepped(s, cur, r) && Shape(r.s)
    requires var next := NextOf(s.live, cur); next == NULL || next != r.victim
    requires x in From(r.s.live, NextOf(s.live, cur))
    ensures x in From(s.live, cur) && SameStream(s, r.s, x)
  {
    RestOfWalk(s, cur, r);
    StaysSame(s, cur, r, x);
  }

  lemma StaysSame(s: Sys, cur: int, r: Outcome, x: int)
    requires Shape(s) && cur in s.live && Stepped(s, cur, r) && Shape(r.s) && x in s.live && x != r.victim
    ensures SameStream(s, r.s, x)
  {
    assert IsSlot(x);
  }

  /** Every stream that gets a turn was live at the start, and has at its turn the events reported then. */
  lemma {:induction false} WalkHandsReported(s: Sys, cur: int, visits: seq<Env>, t: Turn)
    requires Base(s) && (cur == NULL || cur in s.live) && !Walk(s, cur, visits).hit
    requires t in Walk(s, cur, visits).turns
    ensures Base(t.before) && t.slot in From(s.live, cur) && SameStream(s, t.before, t.slot)
    decreases Potential(s.st), |From(s.live, cur)|
  {
    if cur != NULL {
      var next := NextOf(s.live, cur);
      var r := Visit(s, cur, Next(visits));
      WalkTurn(s, cur, visits);
      WalkProgress(s, cur, Next(visits));
      if t == Turn(cur, s, Next(visits)) {
        assert From(s.live, cur)[0] == cur;
      } else {
        WalkHandsReported(r.s, next, Rest(visits), t);
        SameStreamStep(s, cur, r, t.slot);
      }
    }
  }

  ghost predicate GoodAlong(w: WalkResult) {
    Good(w.s) && forall t :: t in w.turns ==> Good(t.before)
  }

  lemma TurnGood(s: Sys, cur: int, visits: seq<Env>)
    requires Good(s) && cur in s.live
    ensures var r := Visit(s, cur, Next(visits));
      var next := NextOf(s.live, cur);
      var w := Walk(s, cur, visits);
      && Base(r.s) && (next == NULL || next in r.s.live) && (Good(r.s) <==> !Stale(s, r.victim))
      && if !r.ok then w.stale == Stale(s, r.victim) && (GoodAlong(w) <==> Good(r.s))
         else
           var w' := Walk(r.s, next, Rest(visits));
           w.stale == (w'.stale || Stale(s, r.victim)) && (GoodAlong(w) <==> GoodAlong(w'))
  {
    WalkTurn(s, cur, visits);
    VisitGood(s, cur, Next(visits));
    var r := Visit(s, cur, Next(visits));
    if r.ok {
      AlongTurn(Walk(s, cur, visits), Turn(cur, s, Next(visits)), Walk(r.s, NextOf(s.live, cur), Rest(visits)));
    }
  }

  /** The pairs are safe at every turn of a walk and after it exactly when no eviction took a stale stream. */
  lemma {:induction false} WalkGood(s: Sys, cur: int, visits: seq<Env>)
    requires Good(s) && (cur == NULL || cur in s.live)
    ensures GoodAlong(Walk(s, cur, visits)) <==> !Walk(s, cur, visits).stale
    decreases Potential(s.st), |From(s.live, cur)|
  {
    if cur != NULL {
      WalkProgress(s, cur, Next(visits));
      TurnGood(s, cur, visits);
      var r := Visit(s, cur, Next(visits));
      if r.ok && Stale(s, r.victim) {
        WalkStartsAt(r.s, NextOf(s.live, cur), Rest(visits));
      } else if r.ok {
        WalkGood(r.s, NextOf(s.live, cur), Rest(visits));
      }
    }
  }

  lemma AlongTurn(w: WalkResult, t: Turn, w': WalkResult)
    requires w.s == w'.s && w.turns == [t] + w'.turns
    ensures GoodAlong(w) <==> Good(t.before) && GoodAlong(w')
  {
    assert forall u :: u in w.turns <==> u == t || u in w'.turns;
  }

  /** The state a walk starts from is the one before its first turn, or the final one. */
  lemma WalkStartsAt(s: Sys, cur: int, visits: seq<Env>)
    requires Base(s) && (cur == NULL || cur in s.live)
    ensures var w := Walk(s, cur, visits);
      if cur == NULL then w.s == s else Turn(cur, s, Next(visits)) in w.turns
  {
    if cur != NULL {
      WalkTurn(s, cur, visits);
    }
  }

  /** At most one eviction since abandoned streams were removed cannot take a stale one. */
  lemma {:induction false} FewEvictionsFresh(s: Sys, cur: int, visits: seq<Env>)
    requires Good(s) && (cur == NULL || cur in s.live) && Walk(s, cur, visits).s.evictions <= 1
    ensures !Walk(s, cur, visits).stale
    decreases Potential(s.st), |From(s.live, cur)|
  {
    if cur != NULL {
      WalkProgress(s, cur, Next(visits));
      WalkTurn(s, cur, visits);
      VisitGood(s, cur, Next(visits));
      var r := Visit(s, cur, Next(visits));
      if r.ok {
        WalkBase(r.s, NextOf(s.live, cur), Rest(visits));
      }
      FirstVictimFresh(s, cur, r);
      if r.ok {
        FewEvictionsFresh(r.s, NextOf(s.live, cur), Rest(visits));
      }
    }
  }

  lemma FirstVictimFresh(s: Sys, cur: int, r: Outcome)
    requires Shape(s) && Related(s) && cur in s.live && Stepped(s, cur, r) && r.s.evictions <= 1
    ensures !Stale(s, r.victim)
  {
    if r.victim != NULL && r.victim in s.live {
      NobodyStale(s, r.victim);
    }
  }
}
