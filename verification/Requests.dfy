/**
 * A CONNECT request over the turns of the event loop that receive it, however it is cut into chunks and
 * whatever happens in between to the rest of the proxy.
 */
module Requests {
  import opened Bytes
  import opened PollEvents
  import opened LiveLists
  import opened Socks
  import opened Streams
  import opened Handlers
  import opened Walks
  import opened Handshakes
  import opened Watching
  import opened Runs

  /** A client at the request stage with `got` gathered so far. */
  predicate Gathering(x: Stream, got: seq<byte>) {
    x.role == Client && x.level == Req && !x.abandoned && x.queue == got
  }

  /** The turn of `i` in which it can be read, and `chunk` is what there is to read. */
  ghost predicate Receives(s: Sys, i: int, e: Env, chunk: seq<byte>) {
    && Sound(s) && i in s.live && s.st[i].revents == IN
    && var a := Arrive(s, e.arrivals);
       |a.st| == POOL_SIZE && a.st[i].sock.unread == chunk
  }

  /** Nothing but its registration, the events reported and the bytes at its socket changes in a stream between two turns. */
  predicate Meanwhile(x: Stream, y: Stream) {
    y == x.(levents := y.levents, revents := y.revents, pollref := y.pollref, sock := y.sock)
  }

  /**
   * What the turn comes to that receives the last chunk: the stage asks for the destination of `r`, kind,
   * address and port, and it is dialled, or the client is abandoned when its host is not resolved.
   */
  ghost predicate DialsFor(r: Request, s: Sys, i: int, e: Env)
    requires Sound(s) && i in s.live
  {
    var a := Arrive(s, e.arrivals);
    && Shape(a) && i in a.live && IsSlot(i) && Sound(Put(a, i, Read(a.st[i])))
    && Receive(a.st[i].level, a.st[i].queue, Chunk(a.st[i])) == Dial(r)
    && var t := Put(a, i, Read(a.st[i]));
       Visit(s, i, e) == if r.Host? && !e.resolved then Outcome(Abandon(t, i), true, NULL) else SetupEndpoint(t, i, e)
  }

  /** The turn leaves the client with `got` gathered. */
  ghost predicate GoesOn(s: Sys, i: int, e: Env, got: seq<byte>)
    requires Sound(s) && i in s.live
  {
    var v := Visit(s, i, e);
    v.ok && v.victim == NULL && IsSlot(i) && |v.s.st| == POOL_SIZE && Gathering(v.s.st[i], got)
  }

  lemma ShortRequest(r: Request)
    requires WellFormed(r)
    ensures |EncodeRequest(r)| <= CAPACITY
  {
  }

  lemma ReadSound(s: Sys, i: int)
    requires Sound(s) && i in s.live && s.st[i].role == Client
    ensures IsSlot(i) && Sound(Put(s, i, Read(s.st[i])))
  {
  }

  /** One chunk: it is gathered while something is still missing, and completes the request otherwise. */
  lemma TurnTakesChunk(r: Request, s: Sys, i: int, e: Env, got: seq<byte>, chunk: seq<byte>, rest: seq<byte>)
    requires WellFormed(r) && got + chunk + rest == EncodeRequest(r) && |chunk| >= 2
    requires Receives(s, i, e, chunk) && Gathering(s.st[i], got)
    ensures if rest == [] then DialsFor(r, s, i, e) else GoesOn(s, i, e, got + chunk)
  {
    ShortRequest(r);
    ChunkWaits(r, got, chunk, rest);
    ArriveSound(s, e.arrivals);
    var a := Arrive(s, e.arrivals);
    assert IsSlot(i);
    ReadSound(a, i);
    var me := a.st[i];
    assert Chunk(me) == chunk;
    assert Visit(s, i, e) == HandleSocks(a, i, e);
  }

  /** The turns of `i` in the states `ss` receive the chunks one after the other. */
  ghost predicate Delivered(i: int, chunks: seq<seq<byte>>, ss: seq<Sys>, es: seq<Env>) {
    && |ss| == |es| == |chunks|
    && (forall k :: 0 <= k < |chunks| ==> |chunks[k]| >= 2)
    && (forall k {:trigger ReceivedAt(i, chunks, ss, es, k)} :: 0 <= k < |chunks| ==> ReceivedAt(i, chunks, ss, es, k))
    && (forall k {:trigger UndisturbedAfter(i, ss, es, k)} :: 0 <= k < |chunks| - 1 ==> UndisturbedAfter(i, ss, es, k))
  }

  ghost predicate ReceivedAt(i: int, chunks: seq<seq<byte>>, ss: seq<Sys>, es: seq<Env>, k: int)
    requires |ss| == |es| == |chunks| && 0 <= k < |chunks|
  {
    Receives(ss[k], i, es[k], chunks[k])
  }

  ghost predicate UndisturbedAfter(i: int, ss: seq<Sys>, es: seq<Env>, k: int)
    requires |ss| == |es| && 0 <= k < |ss| - 1
  {
    Undisturbed(i, ss[k], es[k], ss[k + 1])
  }

  /** Between its turn in `s` and its turn in `t` nobody disturbs the stream. */
  ghost predicate Undisturbed(i: int, s: Sys, e: Env, t: Sys) {
    && Sound(s) && i in s.live && IsSlot(i) && |t.st| == POOL_SIZE
    && (|Visit(s, i, e).s.st| == POOL_SIZE ==> Meanwhile(Visit(s, i, e).s.st[i], t.st[i]))
  }

  lemma {:induction false} FlattenSplit(chunks: seq<seq<byte>>, k: nat)
    requires k < |chunks|
    ensures Flatten(chunks) == Flatten(chunks[..k]) + chunks[k] + Flatten(chunks[k + 1..])
    ensures Flatten(chunks[..k + 1]) == Flatten(chunks[..k]) + chunks[k]
    decreases k
  {
    var head, tail := chunks[..k], chunks[1..];
    if k == 0 {
      assert chunks[..1][1..] == [] && chunks[..1][0] == chunks[0];
      assert Flatten(head) == [];
    } else {
      FlattenSplit(tail, k - 1);
      assert tail[..k - 1] == head[1..] && tail[k..] == chunks[k + 1..];
      assert chunks[..k + 1][1..] == tail[..k];
    }
  }

  /** What was there, what has come, the chunk at hand and what is still to come. */
  lemma RequestSplit(r: Request, got: seq<byte>, chunks: seq<seq<byte>>, k: nat)
    requires WellFormed(r) && got + Flatten(chunks) == EncodeRequest(r) && k < |chunks|
    ensures got + Flatten(chunks[..k]) + chunks[k] + Flatten(chunks[k + 1..]) == EncodeRequest(r)
    ensures got + Flatten(chunks[..k]) + chunks[k] == got + Flatten(chunks[..k + 1])
  {
    FlattenSplit(chunks, k);
    var done, chunk, rest := Flatten(chunks[..k]), chunks[k], Flatten(chunks[k + 1..]);
    Associate(got, done, chunk);
    Associate(got, done + chunk, rest);
  }

  lemma LaterChunks(chunks: seq<seq<byte>>, k: nat)
    requires k <= |chunks| && forall j :: 0 <= j < |chunks| ==> |chunks[j]| >= 2
    ensures Flatten(chunks[k..]) == [] <==> k == |chunks|
  {
    var rest := chunks[k..];
    if k < |chunks| {
      assert rest[0] == chunks[k];
    }
  }

  /** What the turn of chunk `k` comes to. */
  ghost predicate TurnOf(r: Request, i: int, got: seq<byte>, chunks: seq<seq<byte>>, s: Sys, e: Env, k: nat)
    requires Sound(s) && i in s.live && k < |chunks|
  {
    if k == |chunks| - 1 then DialsFor(r, s, i, e) else GoesOn(s, i, e, got + Flatten(chunks[..k + 1]))
  }

  lemma ChunkTurn(r: Request, i: int, got: seq<byte>, chunks: seq<seq<byte>>, s: Sys, e: Env, k: nat)
    requires WellFormed(r) && got + Flatten(chunks) == EncodeRequest(r) && k < |chunks|
    requires forall j :: 0 <= j < |chunks| ==> |chunks[j]| >= 2
    requires Receives(s, i, e, chunks[k]) && Gathering(s.st[i], got + Flatten(chunks[..k]))
    ensures TurnOf(r, i, got, chunks, s, e, k)
  {
    RequestSplit(r, got, chunks, k);
    LaterChunks(chunks, k + 1);
    TurnTakesChunk(r, s, i, e, got + Flatten(chunks[..k]), chunks[k], Flatten(chunks[k + 1..]));
  }

  lemma GatheredNext(r: Request, i: int, got: seq<byte>, chunks: seq<seq<byte>>, s: Sys, e: Env, t: Sys, k: nat)
    requires WellFormed(r) && got + Flatten(chunks) == EncodeRequest(r) && k + 1 < |chunks|
    requires forall j :: 0 <= j < |chunks| ==> |chunks[j]| >= 2
    requires Receives(s, i, e, chunks[k]) && Gathering(s.st[i], got + Flatten(chunks[..k])) && Undisturbed(i, s, e, t)
    ensures Gathering(t.st[i], got + Flatten(chunks[..k + 1]))
  {
    ChunkTurn(r, i, got, chunks, s, e, k);
  }

  /** Before the turn of chunk `k` exactly the earlier chunks have been gathered. */
  lemma {:induction false} GatheredBefore(r: Request, i: int, got: seq<byte>, chunks: seq<seq<byte>>, ss: seq<Sys>, es: seq<Env>, k: nat)
    requires WellFormed(r) && got + Flatten(chunks) == EncodeRequest(r) && k < |chunks|
    requires Delivered(i, chunks, ss, es) && IsSlot(i) && |ss[0].st| == POOL_SIZE && Gathering(ss[0].st[i], got)
    ensures |ss[k].st| == POOL_SIZE && Gathering(ss[k].st[i], got + Flatten(chunks[..k]))
    decreases k
  {
    if k > 0 {
      GatheredBefore(r, i, got, chunks, ss, es, k - 1);
      assert ReceivedAt(i, chunks, ss, es, k - 1) && UndisturbedAfter(i, ss, es, k - 1);
      GatheredNext(r, i, got, chunks, ss[k - 1], es[k - 1], ss[k], k - 1);
    } else {
      assert got + [] == got;
    }
  }

  /**
   * However a request is cut into chunks of two octets or more, each turn that receives one but the
   * last leaves the client at the request stage with exactly the received prefix, and the turn that
   * receives the last dials the encoded destination.
   */
  lemma RequestOverTurns(r: Request, i: int, got: seq<byte>, chunks: seq<seq<byte>>, ss: seq<Sys>, es: seq<Env>, k: nat)
    requires WellFormed(r) && got + Flatten(chunks) == EncodeRequest(r) && k < |chunks|
    requires Delivered(i, chunks, ss, es) && IsSlot(i) && |ss[0].st| == POOL_SIZE && Gathering(ss[0].st[i], got)
    ensures Sound(ss[k]) && i in ss[k].live
    ensures if k == |chunks| - 1 then DialsFor(r, ss[k], i, es[k]) else GoesOn(ss[k], i, es[k], got + Flatten(chunks[..k + 1]))
  {
    GatheredBefore(r, i, got, chunks, ss, es, k);
    assert ReceivedAt(i, chunks, ss, es, k);
    ChunkTurn(r, i, got, chunks, ss[k], es[k], k);
  }

  // ---------------------------------------------------------------------------------------------
  // Nobody disturbs it
  // ---------------------------------------------------------------------------------------------

  predicate AtRequest(x: Stream) {
    Gathering(x, x.queue)
  }

  /** If slot `i` has a client at the request stage in `t`, it had that client in `s`, as it is. */
  ghost predicate Spares(s: Sys, t: Sys, i: int) {
    && |s.st| == POOL_SIZE && |t.st| == POOL_SIZE && IsSlot(i)
    && (i in t.live && AtRequest(t.st[i]) ==> i in s.live && Meanwhile(s.st[i], t.st[i]))
  }

  /** The turn of another stream leaves a client that is still at the request stage as it was. */
  lemma OtherTurnLeaves(s: Sys, j: int, e: Env, i: int)
    requires Base(s) && Shaken(s) && j in s.live && i != j && IsSlot(i) && Visit(s, j, e).ok && !Strays(s, j, e)
    ensures Spares(s, Visit(s, j, e).s, i)
  {
    var a := Arrive(s, e.arrivals);
    ArriveSound(s, e.arrivals);
    ArriveShaken(s, e.arrivals, []);
    assert ShakenAt(a.st[j]);
    ReactShaken(a, j, e);
    var t := Visit(s, j, e).s;
    if i in t.live && AtRequest(t.st[i]) {
      assert Shaking(t.st[i]) && SameScript(a.st[i], t.st[i]);
    }
  }

  /** A turn with the state it leaves. */
  datatype Moment = Moment(slot: int, before: Sys, after: Sys)

  ghost function AfterTurn(t: Turn): Sys {
    if Sound(t.before) && t.slot in t.before.live then Visit(t.before, t.slot, t.e).s else t.before
  }

  ghost function MomentOf(t: Turn): Moment {
    Moment(t.slot, t.before, AfterTurn(t))
  }

  ghost function Moments(turns: seq<Turn>): (ms: seq<Moment>)
    ensures |ms| == |turns|
  {
    seq(|turns|, k requires 0 <= k < |turns| => MomentOf(turns[k]))
  }

  /**
   * From `s`, over these turns, to `u` unless the last turn fails: the client in slot `i` is spared by
   * all turns but its own and by what happens between them.
   */
  ghost predicate Linked(i: int, s: Sys, ms: seq<Moment>, u: Sys, ok: bool)
    decreases |ms|
  {
    if ms == [] then ok ==> Spares(s, u, i)
    else
      && Spares(s, ms[0].before, i)
      && (ms[0].slot != i && (ok || |ms| > 1) ==> Spares(ms[0].before, ms[0].after, i))
      && Linked(i, ms[0].after, ms[1..], u, ok)
  }

  lemma SparesTwice(s: Sys, t: Sys, u: Sys, i: int)
    requires Spares(s, t, i) && Spares(t, u, i)
    ensures Spares(s, u, i)
  {
  }

  lemma LinkedFrom(i: int, s: Sys, t: Sys, ms: seq<Moment>, u: Sys, ok: bool)
    requires Spares(s, t, i) && Linked(i, t, ms, u, ok)
    ensures Linked(i, s, ms, u, ok)
  {
    if ms != [] {
      SparesTwice(s, t, ms[0].before, i);
    } else if ok {
      SparesTwice(s, t, u, i);
    }
  }

  lemma LinkedMore(i: int, s: Sys, m: Moment, ms: seq<Moment>, u: Sys, ok: bool)
    requires Spares(s, m.before, i) && (m.slot != i ==> Spares(m.before, m.after, i)) && Linked(i, m.after, ms, u, ok)
    ensures Linked(i, s, [m] + ms, u, ok)
  {
    assert ([m] + ms)[1..] == ms;
  }

  lemma {:induction false} LinkedOn(i: int, s: Sys, a: seq<Moment>, t: Sys, b: seq<Moment>, u: Sys, ok: bool)
    requires Linked(i, s, a, t, true) && Linked(i, t, b, u, ok)
    ensures Linked(i, s, a + b, u, ok)
    decreases |a|
  {
    if a == [] {
      assert a + b == b;
      LinkedFrom(i, s, t, b, u, ok);
    } else {
      LinkedOn(i, a[0].after, a[1..], t, b, u, ok);
      LinkedMore(i, s, a[0], a[1..] + b, u, ok);
      assert a + b == [a[0]] + (a[1..] + b);
    }
  }

  lemma SparesItself(s: Sys, i: int)
    requires Shape(s) && IsSlot(i)
    ensures Spares(s, s, i)
  {
  }

  lemma MomentsMore(t: Turn, turns: seq<Turn>)
    ensures Moments([t] + turns) == [MomentOf(t)] + Moments(turns)
  {
  }

  lemma MomentsOn(a: seq<Turn>, b: seq<Turn>)
    ensures Moments(a + b) == Moments(a) + Moments(b)
  {
  }

  /** One turn of a walk, and the rest of it. */
  lemma TurnLinked(s: Sys, cur: int, visits: seq<Env>, i: int)
    requires Base(s) && cur in s.live && Shaken(s) && IsSlot(i) && !Strays(s, cur, Next(visits))
    requires var r := Visit(s, cur, Next(visits));
      Base(r.s) && (NextOf(s.live, cur) == NULL || NextOf(s.live, cur) in r.s.live) && r.ok
    requires var r := Visit(s, cur, Next(visits));
      var w := Walk(r.s, NextOf(s.live, cur), Rest(visits)); Linked(i, r.s, Moments(w.turns), w.s, w.ok)
    ensures var w := Walk(s, cur, visits); Linked(i, s, Moments(w.turns), w.s, w.ok)
  {
    var e := Next(visits);
    var r := Visit(s, cur, e);
    WalkTurn(s, cur, visits);
    SparesItself(s, i);
    if cur != i {
      OtherTurnLeaves(s, cur, e, i);
    }
    var w := Walk(r.s, NextOf(s.live, cur), Rest(visits));
    LinkedMore(i, s, Moment(cur, s, r.s), Moments(w.turns), w.s, w.ok);
    MomentsMore(Turn(cur, s, e), w.turns);
  }

  lemma FailedTurnLinked(s: Sys, cur: int, visits: seq<Env>, i: int)
    requires Base(s) && cur in s.live && IsSlot(i) && !Visit(s, cur, Next(visits)).ok
    ensures var w := Walk(s, cur, visits); Linked(i, s, Moments(w.turns), w.s, w.ok)
  {
    var e := Next(visits);
    WalkTurn(s, cur, visits);
    SparesItself(s, i);
    assert Moments([Turn(cur, s, e)]) == [Moment(cur, s, Visit(s, cur, e).s)];
    assert Linked(i, Visit(s, cur, e).s, [], Visit(s, cur, e).s, false);
  }

  /** The turns of a walk that does not stray. */
  lemma {:induction false} WalkLinked(s: Sys, cur: int, visits: seq<Env>, i: int)
    requires Base(s) && (cur == NULL || cur in s.live) && Shaken(s) && IsSlot(i)
    requires !Strayed(Walk(s, cur, visits).turns)
    ensures var w := Walk(s, cur, visits); Linked(i, s, Moments(w.turns), w.s, w.ok)
    decreases Potential(s.st), |From(s.live, cur)|
  {
    if cur == NULL {
      SparesItself(s, i);
    } else {
      WalkProgress(s, cur, Next(visits));
      TurnThenScript(s, cur, visits);
      StrayedTurn(s, cur, visits);
      if Visit(s, cur, Next(visits)).ok {
        WalkLinked(Visit(s, cur, Next(visits)).s, NextOf(s.live, cur), Rest(visits), i);
        TurnLinked(s, cur, visits, i);
      } else {
        FailedTurnLinked(s, cur, visits, i);
      }
    }
  }

  lemma {:induction false} MarkPendingSpares(s: Sys, l: seq<int>, i: int)
    requires Shape(s) && IsSlot(i) && forall x :: x in l ==> x in s.live
    ensures Spares(s, MarkPending(s, l), i) && Shape(MarkPending(s, l))
    decreases |l|
  {
    if l != [] {
      AbandonShape(s, l[0]);
      MarkPendingSpares(MarkOne(s, l[0]), l[1..], i);
    }
  }

  lemma CleanupSpares(s: Sys, i: int)
    requires Shape(s) && IsSlot(i)
    ensures Spares(s, Cleanup(s), i)
  {
    CleanupFilters(s);
  }

  lemma WatchSpares(s: Sys, w: Wait, i: int)
    requires Base(s) && IsSlot(i) && WatchStreams(s, w).1 >= 0
    ensures Spares(s, WatchStreams(s, w).0, i)
  {
    WatchBase(s, w);
    var t := WatchStreams(s, w).0;
    if i in t.live {
      WatchHeard(s, w, i);
      WatchAt(s, w, i);
    }
  }

  lemma TimeOutSpares(s: Sys, i: int)
    requires Base(s) && IsSlot(i)
    ensures Spares(s, TimeOut(s), i)
  {
    MarkPendingSpares(s, s.live, i);
    CleanupSpares(MarkPending(s, s.live), i);
    SparesTwice(s, MarkPending(s, s.live), TimeOut(s), i);
  }

  lemma CycleLinked(s: Sys, c: CycleEnv, i: int)
    requires Base(s) && Shaken(s) && IsSlot(i) && !Strayed(Cycle(s, c).walk.turns)
    ensures var r := Cycle(s, c); Linked(i, s, Moments(r.walk.turns), r.s, r.ok)
  {
    CleanupBase(s);
    CleanupShaken(s);
    CleanupSpares(s, i);
    WatchBase(Cleanup(s), c.wait);
    var (t, status) := WatchStreams(Cleanup(s), c.wait);
    if status >= 0 {
      WatchShaken(Cleanup(s), c.wait);
      WatchSpares(Cleanup(s), c.wait, i);
      if status > 0 {
        WalkLinked(t, Head(t), c.visits, i);
        var w := Walk(t, Head(t), c.visits);
        SparesTwice(s, Cleanup(s), t, i);
        LinkedFrom(i, s, t, Moments(w.turns), w.s, w.ok);
      } else {
        TimeOutSpares(t, i);
        SparesTwice(s, Cleanup(s), t, i);
        SparesTwice(s, t, TimeOut(t), i);
      }
    }
  }

  /** All turns of these cycles, in order. */
  function TurnsOf(cycles: seq<CycleResult>): seq<Turn> {
    if cycles == [] then [] else cycles[0].walk.turns + TurnsOf(cycles[1..])
  }

  lemma TurnsOfMore(r: CycleResult, cycles: seq<CycleResult>)
    ensures TurnsOf([r] + cycles) == r.walk.turns + TurnsOf(cycles)
  {
    assert ([r] + cycles)[1..] == cycles;
  }

  lemma FirstTurns(s: Sys, cs: seq<CycleEnv>)
    requires Base(s) && cs != []
    ensures var run, r := Run(s, cs), Cycle(s, cs[0]);
      && Base(r.s)
      && (!r.ok ==> TurnsOf(run.cycles) == r.walk.turns && run.s == r.s && !run.ok)
      && (r.ok ==>
            var rest := Run(r.s, cs[1..]);
            TurnsOf(run.cycles) == r.walk.turns + TurnsOf(rest.cycles) && run.s == rest.s && run.ok == rest.ok)
  {
    CycleBase(s, cs[0]);
    var r := Cycle(s, cs[0]);
    if r.ok {
      TurnsOfMore(r, Run(r.s, cs[1..]).cycles);
    } else {
      TurnsOfMore(r, []);
      assert [r] + [] == [r] && r.walk.turns + [] == r.walk.turns;
    }
  }

  /** The turns of a run that does not stray. */
  lemma {:induction false} RunLinked(s: Sys, cs: seq<CycleEnv>, i: int)
    requires Base(s) && Shaken(s) && IsSlot(i) && NoStrays(Run(s, cs))
    ensures Linked(i, s, Moments(TurnsOf(Run(s, cs).cycles)), Run(s, cs).s, Run(s, cs).ok)
    decreases |cs|
  {
    if cs == [] {
      SparesItself(s, i);
    } else {
      RunScripts(s, cs);
      FirstTurns(s, cs);
      CycleShaken(s, cs[0]);
      CycleLinked(s, cs[0], i);
      var r := Cycle(s, cs[0]);
      if r.ok {
        RunLinked(r.s, cs[1..], i);
        var rest := Run(r.s, cs[1..]);
        LinkedOn(i, s, Moments(r.walk.turns), r.s, Moments(TurnsOf(rest.cycles)), rest.s, rest.ok);
        MomentsOn(r.walk.turns, TurnsOf(rest.cycles));
      }
    }
  }

  lemma {:induction false} LinkedSpares(i: int, s: Sys, ms: seq<Moment>, u: Sys, ok: bool, q: nat)
    requires Linked(i, s, ms, u, ok) && q < |ms|
    requires forall k :: 0 <= k < q ==> ms[k].slot != i
    ensures Spares(s, ms[q].before, i)
    decreases q
  {
    if q > 0 {
      LinkedSpares(i, ms[0].after, ms[1..], u, ok, q - 1);
      SparesTwice(s, ms[0].before, ms[0].after, i);
      SparesTwice(s, ms[0].after, ms[q].before, i);
    }
  }

  lemma {:induction false} LinkedTail(i: int, s: Sys, ms: seq<Moment>, u: Sys, ok: bool, p: nat)
    requires Linked(i, s, ms, u, ok) && p < |ms|
    ensures Linked(i, ms[p].after, ms[p + 1..], u, ok)
    decreases p
  {
    if p > 0 {
      LinkedTail(i, ms[0].after, ms[1..], u, ok, p - 1);
      assert ms[1..][p..] == ms[p + 1..];
    }
  }

  /** Slot `i` has no turn between these. */
  predicate NoTurnBetween(turns: seq<Turn>, i: int, p: nat, q: nat) {
    p < q <= |turns| && forall k :: p < k < q ==> turns[k].slot != i
  }

  lemma LinkedBetween(i: int, s: Sys, turns: seq<Turn>, u: Sys, ok: bool, p: nat, q: nat)
    requires Linked(i, s, Moments(turns), u, ok) && q < |turns| && NoTurnBetween(turns, i, p, q)
    ensures Spares(AfterTurn(turns[p]), turns[q].before, i)
  {
    var ms := Moments(turns);
    LinkedTail(i, s, ms, u, ok, p);
    var tail := ms[p + 1..];
    forall k | 0 <= k < q - p - 1
      ensures tail[k].slot != i
    {
      assert tail[k] == ms[p + 1 + k];
    }
    LinkedSpares(i, ms[p].after, tail, u, ok, q - p - 1);
    assert tail[q - p - 1] == ms[q];
  }

  /**
   * In a run that does not stray, a client still at the request stage is at its next turn what it was
   * after its last one, but for what arrived, how it is watched and which events were reported.
   */
  lemma RunSpares(s: Sys, cs: seq<CycleEnv>, i: int, p: nat, q: nat)
    requires Base(s) && Shaken(s) && IsSlot(i) && NoStrays(Run(s, cs))
    requires q < |TurnsOf(Run(s, cs).cycles)| && NoTurnBetween(TurnsOf(Run(s, cs).cycles), i, p, q)
    ensures Spares(AfterTurn(TurnsOf(Run(s, cs).cycles)[p]), TurnsOf(Run(s, cs).cycles)[q].before, i)
  {
    RunLinked(s, cs, i);
    LinkedBetween(i, s, TurnsOf(Run(s, cs).cycles), Run(s, cs).s, Run(s, cs).ok, p, q);
  }

  // ---------------------------------------------------------------------------------------------
  // Requests over whole runs
  // ---------------------------------------------------------------------------------------------

  /** These turns are consecutive turns of the client in slot `i`, and receive the chunks. */
  ghost predicate ReceivedOver(turns: seq<Turn>, i: int, at: seq<nat>, chunks: seq<seq<byte>>) {
    && |at| == |chunks| && IsSlot(i)
    && (forall j :: 0 <= j < |chunks| ==> |chunks[j]| >= 2)
    && (forall j {:trigger ChunkAt(turns, i, at, chunks, j)} :: 0 <= j < |chunks| ==> ChunkAt(turns, i, at, chunks, j))
    && (forall j {:trigger NextAfter(turns, i, at, j)} :: 0 <= j < |at| - 1 ==> NextAfter(turns, i, at, j))
  }

  ghost predicate ChunkAt(turns: seq<Turn>, i: int, at: seq<nat>, chunks: seq<seq<byte>>, j: int)
    requires |at| == |chunks| && 0 <= j < |at|
  {
    && at[j] < |turns|
    && var t := turns[at[j]];
       t.slot == i && Receives(t.before, i, t.e, chunks[j]) && IsSlot(i) && AtRequest(t.before.st[i])
  }

  predicate NextAfter(turns: seq<Turn>, i: int, at: seq<nat>, j: int)
    requires 0 <= j < |at| - 1
  {
    NoTurnBetween(turns, i, at[j], at[j + 1])
  }

  function BeforeThem(turns: seq<Turn>, at: seq<nat>): (ss: seq<Sys>)
    requires forall j :: 0 <= j < |at| ==> at[j] < |turns|
    ensures |ss| == |at|
  {
    seq(|at|, j requires 0 <= j < |at| => turns[at[j]].before)
  }

  function DuringThem(turns: seq<Turn>, at: seq<nat>): (es: seq<Env>)
    requires forall j :: 0 <= j < |at| ==> at[j] < |turns|
    ensures |es| == |at|
  {
    seq(|at|, j requires 0 <= j < |at| => turns[at[j]].e)
  }

  lemma TurnsExist(turns: seq<Turn>, i: int, at: seq<nat>, chunks: seq<seq<byte>>)
    requires ReceivedOver(turns, i, at, chunks)
    ensures forall j :: 0 <= j < |at| ==> at[j] < |turns|
  {
    forall j | 0 <= j < |at|
      ensures at[j] < |turns|
    {
      assert ChunkAt(turns, i, at, chunks, j);
    }
  }

  lemma SparedUndisturbed(i: int, t: Turn, t': Turn)
    requires t.slot == i && Sound(t.before) && i in t.before.live && i in t'.before.live
    requires Spares(AfterTurn(t), t'.before, i) && AtRequest(t'.before.st[i])
    ensures Undisturbed(i, t.before, t.e, t'.before)
  {
  }

  lemma LinkedUndisturbed(i: int, s: Sys, turns: seq<Turn>, u: Sys, ok: bool, at: seq<nat>, chunks: seq<seq<byte>>, j: nat)
    requires Linked(i, s, Moments(turns), u, ok) && ReceivedOver(turns, i, at, chunks) && j + 1 < |at|
    requires forall j :: 0 <= j < |at| ==> at[j] < |turns|
    ensures Undisturbed(i, turns[at[j]].before, turns[at[j]].e, turns[at[j + 1]].before)
  {
    assert NextAfter(turns, i, at, j) && ChunkAt(turns, i, at, chunks, j) && ChunkAt(turns, i, at, chunks, j + 1);
    LinkedBetween(i, s, turns, u, ok, at[j], at[j + 1]);
    SparedUndisturbed(i, turns[at[j]], turns[at[j + 1]]);
  }

  lemma ReceivedHere(turns: seq<Turn>, i: int, at: seq<nat>, chunks: seq<seq<byte>>, j: nat)
    requires ReceivedOver(turns, i, at, chunks) && j < |at|
    requires forall j :: 0 <= j < |at| ==> at[j] < |turns|
    ensures ReceivedAt(i, chunks, BeforeThem(turns, at), DuringThem(turns, at), j)
  {
    assert ChunkAt(turns, i, at, chunks, j);
  }

  lemma UndisturbedHere(turns: seq<Turn>, i: int, at: seq<nat>, j: nat)
    requires j + 1 < |at| && forall j :: 0 <= j < |at| ==> at[j] < |turns|
    requires Undisturbed(i, turns[at[j]].before, turns[at[j]].e, turns[at[j + 1]].before)
    ensures UndisturbedAfter(i, BeforeThem(turns, at), DuringThem(turns, at), j)
  {
    var ss, es := BeforeThem(turns, at), DuringThem(turns, at);
    assert ss[j] == turns[at[j]].before && es[j] == turns[at[j]].e && ss[j + 1] == turns[at[j + 1]].before;
  }

  lemma LinkedDelivers(i: int, s: Sys, turns: seq<Turn>, u: Sys, ok: bool, at: seq<nat>, chunks: seq<seq<byte>>)
    requires Linked(i, s, Moments(turns), u, ok) && ReceivedOver(turns, i, at, chunks)
    requires forall j :: 0 <= j < |at| ==> at[j] < |turns|
    ensures Delivered(i, chunks, BeforeThem(turns, at), DuringThem(turns, at))
  {
    var ss, es := BeforeThem(turns, at), DuringThem(turns, at);
    forall j | 0 <= j < |chunks|
      ensures ReceivedAt(i, chunks, ss, es, j)
    {
      ReceivedHere(turns, i, at, chunks, j);
    }
    forall j | 0 <= j < |chunks| - 1
      ensures UndisturbedAfter(i, ss, es, j)
    {
      LinkedUndisturbed(i, s, turns, u, ok, at, chunks, j);
      UndisturbedHere(turns, i, at, j);
    }
  }

  /**
   * A request over a whole run in which no turn strays: however it is cut into chunks of two octets or
   * more, and whatever the proxy does in between, each turn of the client that receives one but the last
   * leaves it at the request stage with exactly the received prefix, and the turn that receives the last
   * dials the encoded destination, as long as the client is neither abandoned nor evicted before.
   */
  lemma RequestOverRun(r: Request, s: Sys, cs: seq<CycleEnv>, i: int, at: seq<nat>, got: seq<byte>, chunks: seq<seq<byte>>, k: nat)
    requires Base(s) && Shaken(s) && NoStrays(Run(s, cs))
    requires WellFormed(r) && got + Flatten(chunks) == EncodeRequest(r) && k < |chunks|
    requires ReceivedOver(TurnsOf(Run(s, cs).cycles), i, at, chunks)
    requires BeginsWith(TurnsOf(Run(s, cs).cycles), i, at, got)
    ensures DoneAt(r, TurnsOf(Run(s, cs).cycles), i, at, got, chunks, k)
  {
    var run := Run(s, cs);
    RunLinked(s, cs, i);
    LinkedRequest(r, i, s, TurnsOf(run.cycles), run.s, run.ok, at, got, chunks, k);
  }

  /** Before the first of the turns `got` has been gathered. */
  ghost predicate BeginsWith(turns: seq<Turn>, i: int, at: seq<nat>, got: seq<byte>) {
    at != [] && at[0] < |turns| && IsSlot(i) && |turns[at[0]].before.st| == POOL_SIZE && Gathering(turns[at[0]].before.st[i], got)
  }

  /** The turn of chunk `k` goes on gathering, or dials if it is the last. */
  ghost predicate DoneAt(r: Request, turns: seq<Turn>, i: int, at: seq<nat>, got: seq<byte>, chunks: seq<seq<byte>>, k: nat) {
    && k < |chunks| == |at| && at[k] < |turns|
    && var t := turns[at[k]];
       Sound(t.before) && i in t.before.live && TurnOf(r, i, got, chunks, t.before, t.e, k)
  }

  lemma LinkedRequest(r: Request, i: int, s: Sys, turns: seq<Turn>, u: Sys, ok: bool, at: seq<nat>, got: seq<byte>, chunks: seq<seq<byte>>, k: nat)
    requires Linked(i, s, Moments(turns), u, ok)
    requires WellFormed(r) && got + Flatten(chunks) == EncodeRequest(r) && k < |chunks|
    requires ReceivedOver(turns, i, at, chunks) && BeginsWith(turns, i, at, got)
    ensures DoneAt(r, turns, i, at, got, chunks, k)
  {
    TurnsExist(turns, i, at, chunks);
    LinkedDelivers(i, s, turns, u, ok, at, chunks);
    RequestOverTurns(r, i, got, chunks, BeforeThem(turns, at), DuringThem(turns, at), k);
  }
}
