/**
 * Whole runs of the proxy: event cycles one after the other (src/util.c:1155-1202), from start-up to
 * the removal of all streams (src/proxy.c:416-478).
 */
module Runs {
  import opened PollEvents
  import opened LiveLists
  import opened Streams
  import opened Handlers
  import opened BaseInvariant
  import opened Relations
  import opened Walks
  import opened Handshakes
  import opened Watching

  // ---------------------------------------------------------------------------------------------
  // Waiting
  // ---------------------------------------------------------------------------------------------

  /** The outside world while the proxy waits. */
  datatype Wait = Wait(fails: set<int>, error: bool, arrivals: seq<Arrival>, ready: seq<Ready>)

  predicate Busy(s: Sys)
    requires |s.st| == POOL_SIZE && AllSlots(s.live)
  {
    exists k :: 0 <= k < |s.live| && s.st[s.live[k]].revents.Any()
  }

  /** Registrations brought up to date, by whichever mechanism is in use. */
  function Prepare(s: Sys, fails: set<int>): (Sys, bool)
    requires |s.st| == POOL_SIZE && AllSlots(s.live)
  {
    if s.os.epfd >= 0 then BuildEpoll(s, s.live, fails) else (BuildPoll(s), true)
  }

  /** watch_streams: the new state, and its status: negative, zero or positive. */
  function WatchStreams(s: Sys, w: Wait): (Sys, int)
    requires Base(s)
  {
    LiveAreSlots(s);
    PrepareKeeps(s, w.fails);
    var (b, ok) := Prepare(s, w.fails);
    if !ok || w.error then (b, -1)
    else
      ArriveSound(b, w.arrivals);
      var d := Deliver(Arrive(b, w.arrivals), w.ready);
      (d, if Busy(d) then 1 else 0)
  }

  lemma LiveAreSlots(s: Sys)
    requires Shape(s)
    ensures AllSlots(s.live) && PartOf(s.live, s)
  {
  }

  lemma PrepareKeeps(s: Sys, fails: set<int>)
    requires Base(s) && AllSlots(s.live)
    ensures SameButRefs(s, Prepare(s, fails).0) && Base(Prepare(s, fails).0)
  {
    LiveAreSlots(s);
    if s.os.epfd >= 0 {
      BuildEpollAgrees(s, s.live, fails);
    } else {
      BuildPollRefers(s);
      RefsBase(s, BuildPoll(s));
    }
  }

  lemma DeliverSoft(s: Sys, ready: seq<Ready>)
    requires Shape(s)
    ensures Soft(s, Deliver(s, ready)) && Deliver(s, ready).evictions == s.evictions
    ensures forall i :: IsSlot(i) ==> Deliver(s, ready).st[i] == s.st[i].(revents := Deliver(s, ready).st[i].revents)
    ensures forall i :: i in s.live ==> Deliver(s, ready).st[i].revents == Revents(s.st[i], ready)
  {
  }

  lemma WatchBase(s: Sys, w: Wait)
    requires Base(s)
    ensures Base(WatchStreams(s, w).0) && WatchStreams(s, w).0.evictions == s.evictions
  {
    LiveAreSlots(s);
    PrepareKeeps(s, w.fails);
    var (b, ok) := Prepare(s, w.fails);
    if ok && !w.error {
      ArriveSound(b, w.arrivals);
      var a := Arrive(b, w.arrivals);
      SoftBase(b, a, {});
      DeliverSoft(a, w.ready);
      SoftBase(a, Deliver(a, w.ready), {});
    }
  }

  lemma WatchRelated(s: Sys, w: Wait)
    requires Good(s) && s.evictions == 0
    ensures Good(WatchStreams(s, w).0)
  {
    WatchBase(s, w);
    LiveAreSlots(s);
    PrepareKeeps(s, w.fails);
    var (b, ok) := Prepare(s, w.fails);
    SameBondsRelated(s, b);
    if ok && !w.error {
      ArriveSound(b, w.arrivals);
      ArriveRelated(b, w.arrivals);
      var a := Arrive(b, w.arrivals);
      DeliverSoft(a, w.ready);
      SameBondsRelated(a, Deliver(a, w.ready));
    }
  }

  /** What a wait may change in a stream, and what it may report. */
  lemma WatchAt(s: Sys, w: Wait, i: int)
    requires Base(s) && WatchStreams(s, w).1 >= 0 && i in s.live
    ensures var t := WatchStreams(s, w).0;
      && t.live == s.live && |t.st| == POOL_SIZE
      && t.st[i] == s.st[i].(pollref := t.st[i].pollref, levents := t.st[i].levents, revents := t.st[i].revents, sock := t.st[i].sock)
      && t.st[i].revents == Revents(t.st[i], w.ready)
  {
    LiveAreSlots(s);
    PrepareKeeps(s, w.fails);
    var (b, ok) := Prepare(s, w.fails);
    ArriveSound(b, w.arrivals);
    DeliverSoft(Arrive(b, w.arrivals), w.ready);
    assert IsSlot(i);
  }

  /** After the wait no stream holds events it did not ask for. */
  lemma ReportedWasRequested(x: Stream, ready: seq<Ready>)
    requires x.revents == Revents(x, ready)
    ensures Requested(x)
  {
  }

  /** After a wait every handshake is in its script, and the events reported were asked for. */
  lemma WatchShaken(s: Sys, w: Wait)
    requires Base(s) && Shaken(s) && WatchStreams(s, w).1 >= 0
    ensures var t := WatchStreams(s, w).0; Shape(t) && Shaken(t) && Heeded(t, t.live)
  {
    WatchBase(s, w);
    var t := WatchStreams(s, w).0;
    forall i | i in t.live
      ensures ShakenAt(t.st[i]) && Requested(t.st[i])
    {
      WatchShakenAt(s, w, i);
    }
  }

  lemma WatchShakenAt(s: Sys, w: Wait, i: int)
    requires Base(s) && Shaken(s) && WatchStreams(s, w).1 >= 0 && i in WatchStreams(s, w).0.live
    ensures |WatchStreams(s, w).0.st| == POOL_SIZE && IsSlot(i)
    ensures ShakenAt(WatchStreams(s, w).0.st[i]) && Requested(WatchStreams(s, w).0.st[i])
  {
    WatchHeard(s, w, i);
    WatchAt(s, w, i);
    ReportedWasRequested(WatchStreams(s, w).0.st[i], w.ready);
    assert ShakenAt(s.st[i]);
    if Shaking(WatchStreams(s, w).0.st[i]) {
      WaitedInScript(s.st[i], WatchStreams(s, w).0.st[i]);
      RequestedInStep(WatchStreams(s, w).0.st[i]);
    }
  }

  lemma WaitedInScript(x: Stream, y: Stream)
    requires y == x.(pollref := y.pollref, levents := y.levents, revents := y.revents, sock := y.sock)
    requires y.sock.sent == x.sock.sent && y.sock.heard == x.sock.heard
    ensures InScript(x) <==> InScript(y)
  {
  }

  lemma WatchHeard(s: Sys, w: Wait, i: int)
    requires Base(s) && WatchStreams(s, w).1 >= 0 && i in WatchStreams(s, w).0.live
    ensures i in s.live
    ensures WatchStreams(s, w).0.st[i].sock.sent == s.st[i].sock.sent && WatchStreams(s, w).0.st[i].sock.heard == s.st[i].sock.heard
  {
    LiveAreSlots(s);
    PrepareKeeps(s, w.fails);
    var (b, ok) := Prepare(s, w.fails);
    ArriveSound(b, w.arrivals);
    ArriveHeard(b, w.arrivals);
    DeliverSoft(Arrive(b, w.arrivals), w.ready);
    assert IsSlot(i);
  }

  // ---------------------------------------------------------------------------------------------
  // Cycles
  // ---------------------------------------------------------------------------------------------

  datatype CycleEnv = CycleEnv(wait: Wait, visits: seq<Env>)

  /** A cycle: its final state, false after a severe error, the state after the wait, and the walk from it. */
  datatype CycleResult = CycleResult(s: Sys, ok: bool, start: Sys, walk: WalkResult)

  function Head(s: Sys): (h: int)
    ensures h == NULL || h in s.live
  {
    if s.live == [] then NULL else s.live[0]
  }

  /** handle_streams_cycle. */
  function Cycle(s: Sys, c: CycleEnv): CycleResult
    requires Base(s)
  {
    CleanupBase(s);
    WatchBase(Cleanup(s), c.wait);
    var (t, status) := WatchStreams(Cleanup(s), c.wait);
    if status > 0 then
      var w := Walk(t, Head(t), c.visits);
      CycleResult(w.s, w.ok, t, w)
    else
      CycleResult(if status == 0 then TimeOut(t) else t, status == 0, t, WalkResult(t, true, false, false, [], {}))
  }

  /** A wait without events: pending streams are dropped. */
  function TimeOut(s: Sys): Sys
    requires Base(s)
  {
    MarkPendingBase(s, s.live);
    Cleanup(MarkPending(s, s.live))
  }

  /** No eviction of the cycle took a stale stream. */
  predicate Calm(r: CycleResult) {
    !r.walk.stale
  }

  lemma CycleBase(s: Sys, c: CycleEnv)
    requires Base(s)
    ensures var r := Cycle(s, c);
      Base(r.s) && Base(r.start) && forall t :: t in r.walk.turns ==> Base(t.before)
  {
    CleanupBase(s);
    WatchBase(Cleanup(s), c.wait);
    var (t, status) := WatchStreams(Cleanup(s), c.wait);
    if status > 0 {
      WalkBase(t, Head(t), c.visits);
    } else {
      MarkPendingBase(t, t.live);
      CleanupBase(MarkPending(t, t.live));
    }
  }

  lemma TimeOutGood(s: Sys)
    requires Good(s) && s.evictions == 0
    ensures Good(TimeOut(s))
  {
    MarkPendingBase(s, s.live);
    MarkPendingRelated(s, s.live);
    CleanupBase(MarkPending(s, s.live));
    CleanupRelated(MarkPending(s, s.live));
  }

  /** The pairs are related and safe at every turn of the cycle and at its end. */
  ghost predicate GoodThroughout(r: CycleResult) {
    Good(r.s) && forall t :: t in r.walk.turns ==> Good(t.before)
  }

  lemma StartGood(s: Sys, w: Wait)
    requires Good(s)
    ensures Base(Cleanup(s)) && Good(Cleanup(s)) && Cleanup(s).evictions == 0
    ensures Good(WatchStreams(Cleanup(s), w).0) && WatchStreams(Cleanup(s), w).0.evictions == 0
  {
    CleanupBase(s);
    CleanupRelated(s);
    WatchRelated(Cleanup(s), w);
    WatchBase(Cleanup(s), w);
  }

  /** A cycle keeps every pair related and safe throughout exactly when it is calm. */
  lemma CycleGood(s: Sys, c: CycleEnv)
    requires Good(s)
    ensures Good(Cycle(s, c).start)
    ensures GoodThroughout(Cycle(s, c)) <==> Calm(Cycle(s, c))
  {
    StartGood(s, c.wait);
    var (t, status) := WatchStreams(Cleanup(s), c.wait);
    if status > 0 {
      WalkGood(t, Head(t), c.visits);
      assert GoodThroughout(Cycle(s, c)) <==> GoodAlong(Walk(t, Head(t), c.visits));
    } else if status == 0 {
      TimeOutGood(t);
    }
  }

  /** A cycle with at most one eviction is calm. */
  lemma FewEvictionsCalm(s: Sys, c: CycleEnv)
    requires Good(s) && Cycle(s, c).s.evictions <= 1
    ensures Calm(Cycle(s, c))
  {
    StartGood(s, c.wait);
    var (t, status) := WatchStreams(Cleanup(s), c.wait);
    if status > 0 {
      FewEvictionsFresh(t, Head(t), c.visits);
    }
  }

  /** A cycle in which somebody got a turn is a wait that reported events, and a walk. */
  lemma CycleWalks(s: Sys, c: CycleEnv)
    requires Base(s) && Cycle(s, c).walk.turns != []
    ensures var r := Cycle(s, c);
      && Base(Cleanup(s)) && WatchStreams(Cleanup(s), c.wait).1 >= 0 && r.start == WatchStreams(Cleanup(s), c.wait).0
      && Base(r.start) && r.walk == Walk(r.start, Head(r.start), c.visits)
  {
    CleanupBase(s);
    WatchBase(Cleanup(s), c.wait);
  }

  lemma StartRequested(s: Sys, w: Wait, x: int)
    requires Base(s) && WatchStreams(s, w).1 >= 0 && x in WatchStreams(s, w).0.live
    ensures Shape(WatchStreams(s, w).0) && Requested(WatchStreams(s, w).0.st[x])
  {
    WatchBase(s, w);
    WatchHeard(s, w, x);
    WatchAt(s, w, x);
    ReportedWasRequested(WatchStreams(s, w).0.st[x], w.ready);
  }

  /**
   * A walk gives a turn to the streams listed after the wait, in order and once, except those evicted
   * before their turn, exactly when no eviction hits a saved successor.  Then each is the stream that
   * was listed, with the events that were reported for it: no more than it had asked for.
   */
  lemma CycleTurns(s: Sys, c: CycleEnv)
    requires Base(s) && Cycle(s, c).walk.turns != []
    ensures var r := Cycle(s, c); Shape(r.start) && (TurnsInOrder(r.walk, r.start.live) <==> !r.walk.hit)
    ensures var r := Cycle(s, c);
      !r.walk.hit ==> forall t :: t in r.walk.turns ==>
        Shape(t.before) && SameStream(r.start, t.before, t.slot) && Requested(r.start.st[t.slot])
  {
    CycleWalks(s, c);
    var r := Cycle(s, c);
    FromHead(r.start);
    WalkVisitsEach(r.start, Head(r.start), c.visits);
    if !r.walk.hit {
      forall t | t in r.walk.turns
        ensures Shape(t.before) && SameStream(r.start, t.before, t.slot) && Requested(r.start.st[t.slot])
      {
        WalkHandsReported(r.start, Head(r.start), c.visits, t);
        StartRequested(Cleanup(s), c.wait, t.slot);
      }
    }
  }

  lemma CleanupShaken(s: Sys)
    requires Shape(s) && Shaken(s)
    ensures Shape(Cleanup(s)) && Shaken(Cleanup(s))
  {
    CleanupFilters(s);
    forall i | i in Cleanup(s).live
      ensures ShakenAt(Cleanup(s).st[i])
    {
      assert ShakenAt(s.st[i]);
    }
  }

  lemma {:induction false} MarkPendingShaken(s: Sys, l: seq<int>)
    requires Shape(s) && Shaken(s) && forall x :: x in l ==> x in s.live
    ensures Shape(MarkPending(s, l)) && Shaken(MarkPending(s, l))
    decreases |l|
  {
    if l != [] {
      AbandonShape(s, l[0]);
      var t := MarkOne(s, l[0]);
      forall i | i in t.live
        ensures ShakenAt(t.st[i])
      {
        assert ShakenAt(s.st[i]);
      }
      MarkPendingShaken(t, l[1..]);
    }
  }

  /** Every handshake is in its script at every turn of the cycle and at its end. */
  ghost predicate ScriptThroughout(r: CycleResult) {
    AllShaken(r.walk.turns) && (r.ok ==> Shape(r.s) && Shaken(r.s))
  }

  /**
   * A cycle keeps every handshake in its script exactly when no turn of it strays; then, without a hit,
   * no reply is parsed in it.
   */
  lemma CycleShaken(s: Sys, c: CycleEnv)
    requires Base(s) && Shaken(s)
    ensures var r := Cycle(s, c);
      && (ScriptThroughout(r) <==> !Strayed(r.walk.turns))
      && (!r.walk.hit && !Strayed(r.walk.turns) ==> AllHeeded(r.walk.turns))
  {
    CleanupBase(s);
    CleanupShaken(s);
    WatchBase(Cleanup(s), c.wait);
    var (t, status) := WatchStreams(Cleanup(s), c.wait);
    if status > 0 {
      WatchShaken(Cleanup(s), c.wait);
      FromHead(t);
      WalkShaken(t, Head(t), c.visits);
      if !Walk(t, Head(t), c.visits).hit && !Strayed(Walk(t, Head(t), c.visits).turns) {
        WalkHeeded(t, Head(t), c.visits);
      }
    } else if status == 0 {
      WatchShaken(Cleanup(s), c.wait);
      MarkPendingShaken(t, t.live);
      CleanupShaken(MarkPending(t, t.live));
    }
  }

  /** In a calm cycle no turn strays. */
  lemma CalmNeverStrays(s: Sys, c: CycleEnv)
    requires Good(s) && Calm(Cycle(s, c))
    ensures !Strayed(Cycle(s, c).walk.turns)
  {
    StartGood(s, c.wait);
    var (t, status) := WatchStreams(Cleanup(s), c.wait);
    if status > 0 {
      CalmWalkShaken(t, Head(t), c.visits);
    }
  }

  lemma FromHead(s: Sys)
    requires Shape(s)
    ensures From(s.live, Head(s)) == s.live
  {
  }

  // ---------------------------------------------------------------------------------------------
  // Runs
  // ---------------------------------------------------------------------------------------------

  /** Cycles until one fails, or until the outside world has been followed far enough. */
  datatype RunResult = RunResult(s: Sys, ok: bool, cycles: seq<CycleResult>)

  function Run(s: Sys, cs: seq<CycleEnv>): RunResult
    requires Base(s)
    decreases |cs|
  {
    if cs == [] then RunResult(s, true, [])
    else
      CycleBase(s, cs[0]);
      var r := Cycle(s, cs[0]);
      if !r.ok then RunResult(r.s, false, [r])
      else
        var rest := Run(r.s, cs[1..]);
        RunResult(rest.s, rest.ok, [r] + rest.cycles)
  }

  lemma {:induction false} RunBase(s: Sys, cs: seq<CycleEnv>)
    requires Base(s)
    ensures Base(Run(s, cs).s)
    ensures forall r :: r in Run(s, cs).cycles ==> Base(r.s) && forall t :: t in r.walk.turns ==> Base(t.before)
    decreases |cs|
  {
    if cs != [] {
      CycleBase(s, cs[0]);
      if Cycle(s, cs[0]).ok {
        RunBase(Cycle(s, cs[0]).s, cs[1..]);
      }
    }
  }

  predicate AllCalm(run: RunResult) {
    forall r :: r in run.cycles ==> Calm(r)
  }

  predicate NoHits(run: RunResult) {
    forall r :: r in run.cycles ==> !r.walk.hit
  }

  lemma FirstCycle(s: Sys, cs: seq<CycleEnv>)
    requires Base(s) && cs != []
    ensures var r := Cycle(s, cs[0]);
      && Base(r.s) && r in Run(s, cs).cycles
      && (!r.ok ==> Run(s, cs) == RunResult(r.s, false, [r]))
      && (r.ok ==>
            var rest := Run(r.s, cs[1..]);
            && Run(s, cs).s == rest.s && Run(s, cs).ok == rest.ok
            && (forall q :: q in Run(s, cs).cycles <==> q == r || q in rest.cycles))
  {
    CycleBase(s, cs[0]);
  }

  ghost predicate AllGood(run: RunResult) {
    forall r :: r in run.cycles ==> GoodThroughout(r)
  }

  /**
   * In every run, throughout exactly when no eviction takes a stale stream: the neighbour of a stream
   * in service is none or a stream in service of the opposite role pointing back; the two are
   * abandoned together and forward together; a pair forwards the bytes of both directions in order,
   * each once; and if its reply was drained before promotion it hands off without stalling.
   */
  lemma {:induction false} RunGood(s: Sys, cs: seq<CycleEnv>)
    requires Good(s)
    ensures AllGood(Run(s, cs)) <==> AllCalm(Run(s, cs))
    ensures AllCalm(Run(s, cs)) ==> Good(Run(s, cs).s)
    decreases |cs|
  {
    if cs != [] {
      RunGoodStep(s, cs);
      if Cycle(s, cs[0]).ok && Calm(Cycle(s, cs[0])) {
        RunGood(Cycle(s, cs[0]).s, cs[1..]);
      }
    }
  }

  lemma MoreCycles(run: RunResult, r: CycleResult, rest: RunResult)
    requires forall q :: q in run.cycles <==> q == r || q in rest.cycles
    ensures AllGood(run) <==> GoodThroughout(r) && AllGood(rest)
    ensures AllCalm(run) <==> Calm(r) && AllCalm(rest)
  {
  }

  lemma RunGoodStep(s: Sys, cs: seq<CycleEnv>)
    requires Good(s) && cs != []
    ensures var run, r := Run(s, cs), Cycle(s, cs[0]);
      && (Calm(r) ==> Good(r.s)) && Base(r.s)
      && if !r.ok then (AllGood(run) <==> Calm(r)) && (AllCalm(run) <==> Calm(r)) && run.s == r.s
         else
           var rest := Run(r.s, cs[1..]);
           (AllGood(run) <==> Calm(r) && AllGood(rest)) && (AllCalm(run) <==> Calm(r) && AllCalm(rest)) && run.s == rest.s
  {
    FirstCycle(s, cs);
    CycleGood(s, cs[0]);
    var r := Cycle(s, cs[0]);
    if r.ok {
      MoreCycles(Run(s, cs), r, Run(r.s, cs[1..]));
    } else {
      MoreCycles(Run(s, cs), r, RunResult(r.s, false, []));
    }
  }

  ghost predicate AllScripted(run: RunResult) {
    forall r :: r in run.cycles ==> ScriptThroughout(r)
  }

  ghost predicate NoStrays(run: RunResult) {
    forall r :: r in run.cycles ==> !Strayed(r.walk.turns)
  }

  /** In cycles without a hit no reply is parsed. */
  ghost predicate HeededWithoutHit(run: RunResult) {
    forall r :: r in run.cycles && !r.walk.hit ==> AllHeeded(r.walk.turns)
  }

  lemma MoreScripts(run: RunResult, r: CycleResult, rest: RunResult)
    requires forall q :: q in run.cycles <==> q == r || q in rest.cycles
    ensures AllScripted(run) <==> ScriptThroughout(r) && AllScripted(rest)
    ensures NoStrays(run) <==> !Strayed(r.walk.turns) && NoStrays(rest)
    ensures HeededWithoutHit(run) <==> (!r.walk.hit ==> AllHeeded(r.walk.turns)) && HeededWithoutHit(rest)
  {
  }

  lemma RunScripts(s: Sys, cs: seq<CycleEnv>)
    requires Base(s) && cs != []
    ensures var run, r := Run(s, cs), Cycle(s, cs[0]);
      var rest := if r.ok && Base(r.s) then Run(r.s, cs[1..]) else RunResult(r.s, false, []);
      && Base(r.s)
      && (AllScripted(run) <==> ScriptThroughout(r) && AllScripted(rest))
      && (NoStrays(run) <==> !Strayed(r.walk.turns) && NoStrays(rest))
      && (HeededWithoutHit(run) <==> (!r.walk.hit ==> AllHeeded(r.walk.turns)) && HeededWithoutHit(rest))
  {
    FirstCycle(s, cs);
    var r := Cycle(s, cs[0]);
    MoreScripts(Run(s, cs), r, if r.ok then Run(r.s, cs[1..]) else RunResult(r.s, false, []));
  }

  /**
   * In every run, whatever is evicted, every handshake follows its script at every turn and between
   * cycles exactly when no turn strays; then, without a hit, no reply is parsed.
   */
  lemma {:induction false} RunShaken(s: Sys, cs: seq<CycleEnv>)
    requires Base(s) && Shaken(s)
    ensures AllScripted(Run(s, cs)) <==> NoStrays(Run(s, cs))
    ensures NoStrays(Run(s, cs)) ==> HeededWithoutHit(Run(s, cs))
    decreases |cs|
  {
    if cs != [] {
      RunScripts(s, cs);
      CycleShaken(s, cs[0]);
      if Cycle(s, cs[0]).ok && !Strayed(Cycle(s, cs[0]).walk.turns) {
        RunShaken(Cycle(s, cs[0]).s, cs[1..]);
      }
    }
  }

  /** In a calm run no turn strays. */
  lemma {:induction false} CalmRunNeverStrays(s: Sys, cs: seq<CycleEnv>)
    requires Good(s) && AllCalm(Run(s, cs))
    ensures NoStrays(Run(s, cs))
    decreases |cs|
  {
    if cs != [] {
      RunGoodStep(s, cs);
      CycleGood(s, cs[0]);
      RunScripts(s, cs);
      CalmNeverStrays(s, cs[0]);
      if Cycle(s, cs[0]).ok {
        CalmRunNeverStrays(Cycle(s, cs[0]).s, cs[1..]);
      }
    }
  }

  // ---------------------------------------------------------------------------------------------
  // From start-up to the end
  // ---------------------------------------------------------------------------------------------

  /** The state proxy_task starts from: the pool zeroed, nothing open. */
  function Zero(): Sys {
    Sys([], seq(POOL_SIZE, i => Blank(0)), seq(POOL_SIZE, i => 0), 0, Os(-1, Descriptors({}, multiset{}, multiset{}), map[]), 0)
  }

  /** proxy_events_setup: an epoll descriptor if there is one to be had. */
  function SetupEvents(epfd: int): Sys {
    if epfd >= 0 then Zero().(os := Os(epfd, Zero().os.fds.Open(epfd), map[])) else Zero()
  }

  function CloseEpoll(s: Sys): Sys {
    if s.os.epfd >= 0 then CloseFd(s, s.os.epfd) else s
  }

  /** Set-up, with the listening socket as listen_socket leaves it; false when there is none. */
  function Boot(epfd: int, listen: Dialing): (Sys, bool) {
    var s := SetupEvents(epfd);
    match listen
    case NoSocket => (CloseEpoll(s), false)
    case Refused(fd) => (CloseEpoll(if Fresh(s, fd) then CloseFd(OpenFd(s, fd), fd) else s), false)
    case Pending(fd) =>
      if Fresh(s, fd) then (AddListener(OpenFd(s, fd), fd), true) else (CloseEpoll(s), false)
  }

  function AddListener(s: Sys, fd: int): Sys
    requires |s.st| == POOL_SIZE && |s.stamp| == POOL_SIZE
  {
    s.(live := [0], st := s.st[0 := Blank(fd).(role := Listener, events := IN)], stamp := s.stamp[0 := s.clock], clock := s.clock + 1)
  }

  lemma BootBase(epfd: int, listen: Dialing)
    requires Boot(epfd, listen).1
    ensures var s := Boot(epfd, listen).0;
      && Base(s) && s.evictions == 0
      && s.live == [0] && s.st[0] == Blank(listen.fd).(role := Listener, events := IN)
  {
    var s := Boot(epfd, listen).0;
    assert s.live == [0] && s.stamp[0] == 0 && s.clock == 1;
    assert Shape(s) && Roles(s);
    assert LiveFds(s) == {listen.fd};
    assert s.os.fds.open == LiveFds(s) + EpollFd(s.os);
  }

  lemma OnlyListener(s: Sys, fd: int)
    requires Base(s) && s.live == [0] && s.st[0] == Blank(fd).(role := Listener, events := IN)
    ensures Related(s) && PairsSafe(s) && Shaken(s)
  {
  }

  lemma BootGood(epfd: int, listen: Dialing)
    requires Boot(epfd, listen).1
    ensures var s := Boot(epfd, listen).0;
      && Good(s) && Shaken(s) && s.evictions == 0
      && s.live == [0] && s.st[0].role == Listener && s.st[0].fd == listen.fd
  {
    BootBase(epfd, listen);
    OnlyListener(Boot(epfd, listen).0, listen.fd);
  }

  /** proxy_task after set-up: cycles, then the removal of everything if they came to an end. */
  function Finish(s: Sys): Sys
    requires Shape(s)
  {
    CloseEpoll(RemoveAll(s))
  }

  /** proxy_task: the state it has reached, and whether it is still running. */
  function Life(epfd: int, listen: Dialing, cs: seq<CycleEnv>): (Sys, bool) {
    var (s, ok) := Boot(epfd, listen);
    if !ok then (s, false)
    else
      BootBase(epfd, listen);
      RunBase(s, cs);
      var run := Run(s, cs);
      if run.ok then (run.s, true) else (Finish(run.s), false)
  }

  /** Nothing is open, and every descriptor was closed as often as it was opened. */
  predicate AllClosed(os: Os) {
    os.fds.open == {} && os.fds.acquired == os.fds.released
  }

  lemma FinishCloses(s: Sys)
    requires Base(s)
    ensures AllClosed(Finish(s).os) && Finish(s).live == [] && Finish(s).os.kernel == map[]
  {
    RemoveAllEmpties(s);
    var t := RemoveAll(s);
    if t.os.epfd >= 0 {
      CloseCounts(t.os.fds, t.os.epfd);
    }
  }

  lemma FailedBootCloses(epfd: int, listen: Dialing)
    requires !Boot(epfd, listen).1
    ensures AllClosed(Boot(epfd, listen).0.os)
  {
    var s := SetupEvents(epfd);
    if listen.Refused? && Fresh(s, listen.fd) {
      assert s.os.fds.open + {listen.fd} - {listen.fd} == s.os.fds.open;
    }
  }

  /**
   * Descriptors over a whole life of the proxy, whatever the outside world does: at every cycle
   * boundary the open descriptors are the distinct descriptors of the live streams and epoll's own,
   * and when proxy_task returns none is open and each was closed once for each time it was opened.
   */
  lemma NoDescriptorLeaks(epfd: int, listen: Dialing, cs: seq<CycleEnv>)
    ensures var (s, running) := Life(epfd, listen, cs);
      if running then Base(s) else AllClosed(s.os)
    ensures Boot(epfd, listen).1 ==>
              && Base(Boot(epfd, listen).0)
              && forall r :: r in Run(Boot(epfd, listen).0, cs).cycles ==> Base(r.s)
  {
    if Boot(epfd, listen).1 {
      BootBase(epfd, listen);
      RunBase(Boot(epfd, listen).0, cs);
      FinishCloses(Run(Boot(epfd, listen).0, cs).s);
    } else {
      FailedBootCloses(epfd, listen);
    }
  }

  /**
   * Over every life of the proxy: the relation graph, hand-off and byte accounts hold throughout exactly
   * when it is calm, and the scripts of the handshakes exactly when no turn strays; a calm life does not.
   */
  lemma LifeIsGood(epfd: int, listen: Dialing, cs: seq<CycleEnv>)
    requires Boot(epfd, listen).1
    ensures Base(Boot(epfd, listen).0)
    ensures var run := Run(Boot(epfd, listen).0, cs);
      && (AllGood(run) <==> AllCalm(run))
      && (AllCalm(run) ==> Good(run.s))
      && (AllScripted(run) <==> NoStrays(run))
      && (AllCalm(run) ==> NoStrays(run))
      && (NoStrays(run) ==> HeededWithoutHit(run))
  {
    BootGood(epfd, listen);
    var s := Boot(epfd, listen).0;
    RunGood(s, cs);
    RunShaken(s, cs);
    if AllCalm(Run(s, cs)) {
      CalmRunNeverStrays(s, cs);
    }
  }
}
