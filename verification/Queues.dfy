/**
 * The queue of a stream never outgrows its buffer (src/util.c:467-509), so a sequence in the pool
 * record stands for what DataQueue keeps in place.
 */
module Queues {
  import opened LiveLists
  import opened Streams
  import opened Handlers
  import opened BaseInvariant
  import opened Steps
  import opened Walks
  import opened Watching
  import opened Runs

  ghost predicate AllFit(s: Sys)
    requires Shape(s)
  {
    forall i :: i in s.live ==> QueueFits(s.st[i])
  }

  lemma VisitFits(s: Sys, i: int, e: Env)
    requires Base(s) && i in s.live && AllFit(s)
    ensures Shape(Visit(s, i, e).s) && AllFit(Visit(s, i, e).s)
  {
    VisitBase(s, i, e);
    VisitStep(s, i, e);
    var t := Visit(s, i, e).s;
    forall x | x in t.live
      ensures QueueFits(t.st[x])
    {
      assert IsSlot(x);
    }
  }

  /** Every queue fits before each of these turns. */
  ghost predicate AllTurnsFit(turns: seq<Turn>) {
    forall t :: t in turns ==> Shape(t.before) && AllFit(t.before)
  }

  lemma FitMore(t: Turn, turns: seq<Turn>)
    requires Shape(t.before) && AllFit(t.before) && AllTurnsFit(turns)
    ensures AllTurnsFit([t] + turns)
  {
  }

  lemma TurnThenFits(s: Sys, cur: int, visits: seq<Env>)
    requires Base(s) && cur in s.live && AllFit(s)
    requires var r := Visit(s, cur, Next(visits));
      Base(r.s) && (NextOf(s.live, cur) == NULL || NextOf(s.live, cur) in r.s.live) &&
      (r.ok ==> AllTurnsFit(Walk(r.s, NextOf(s.live, cur), Rest(visits)).turns))
    ensures AllTurnsFit(Walk(s, cur, visits).turns)
  {
    var r := Visit(s, cur, Next(visits));
    var t := Turn(cur, s, Next(visits));
    WalkTurn(s, cur, visits);
    if r.ok {
      FitMore(t, Walk(r.s, NextOf(s.live, cur), Rest(visits)).turns);
    } else {
      FitMore(t, []);
      assert [t] + [] == [t];
    }
  }

  lemma {:induction false} WalkFits(s: Sys, cur: int, visits: seq<Env>)
    requires Base(s) && (cur == NULL || cur in s.live) && AllFit(s)
    ensures var w := Walk(s, cur, visits); Shape(w.s) && AllFit(w.s) && AllTurnsFit(w.turns)
    decreases Potential(s.st), |From(s.live, cur)|
  {
    if cur != NULL {
      WalkProgress(s, cur, Next(visits));
      WalkTurn(s, cur, visits);
      VisitFits(s, cur, Next(visits));
      var r := Visit(s, cur, Next(visits));
      if r.ok {
        WalkFits(r.s, NextOf(s.live, cur), Rest(visits));
      }
      TurnThenFits(s, cur, visits);
    }
  }

  lemma WatchFits(s: Sys, w: Wait)
    requires Base(s) && AllFit(s)
    ensures Shape(WatchStreams(s, w).0) && AllFit(WatchStreams(s, w).0)
  {
    WatchBase(s, w);
    LiveAreSlots(s);
    PrepareKeeps(s, w.fails);
    var (b, ok) := Prepare(s, w.fails);
    if ok && !w.error {
      ArriveSound(b, w.arrivals);
      DeliverSoft(Arrive(b, w.arrivals), w.ready);
    }
    var t := WatchStreams(s, w).0;
    forall x | x in t.live
      ensures QueueFits(t.st[x])
    {
      assert IsSlot(x);
    }
  }

  lemma {:induction false} MarkPendingFits(s: Sys, l: seq<int>)
    requires Shape(s) && AllFit(s) && forall x :: x in l ==> x in s.live
    ensures Shape(MarkPending(s, l)) && AllFit(MarkPending(s, l))
    decreases |l|
  {
    if l != [] {
      AbandonShape(s, l[0]);
      MarkPendingFits(MarkOne(s, l[0]), l[1..]);
    }
  }

  lemma CleanupFits(s: Sys)
    requires Shape(s) && AllFit(s)
    ensures Shape(Cleanup(s)) && AllFit(Cleanup(s))
  {
    CleanupFilters(s);
  }

  /** Every queue fits at every turn of a cycle and at its end. */
  lemma CycleFits(s: Sys, c: CycleEnv)
    requires Base(s) && AllFit(s)
    ensures var r := Cycle(s, c);
      Shape(r.s) && AllFit(r.s) && AllTurnsFit(r.walk.turns)
  {
    CleanupBase(s);
    CleanupFits(s);
    WatchBase(Cleanup(s), c.wait);
    WatchFits(Cleanup(s), c.wait);
    var (t, status) := WatchStreams(Cleanup(s), c.wait);
    if status > 0 {
      WalkFits(t, Head(t), c.visits);
    } else {
      MarkPendingFits(t, t.live);
      CleanupFits(MarkPending(t, t.live));
    }
  }

  ghost predicate FitThroughout(r: CycleResult) {
    Shape(r.s) && AllFit(r.s) && AllTurnsFit(r.walk.turns)
  }

  lemma {:induction false} RunFits(s: Sys, cs: seq<CycleEnv>)
    requires Base(s) && AllFit(s)
    ensures forall r :: r in Run(s, cs).cycles ==> FitThroughout(r)
    decreases |cs|
  {
    if cs != [] {
      FirstCycle(s, cs);
      CycleFits(s, cs[0]);
      if Cycle(s, cs[0]).ok {
        RunFits(Cycle(s, cs[0]).s, cs[1..]);
      }
    }
  }

  /** In every life of the proxy, whatever the outside world does, every queue fits its buffer at every turn. */
  lemma LifeFits(epfd: int, listen: Dialing, cs: seq<CycleEnv>)
    requires Boot(epfd, listen).1
    ensures Base(Boot(epfd, listen).0)
    ensures forall r :: r in Run(Boot(epfd, listen).0, cs).cycles ==> FitThroughout(r)
  {
    BootBase(epfd, listen);
    RunFits(Boot(epfd, listen).0, cs);
  }
}
