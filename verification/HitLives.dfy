/**
 * A life in which an eviction hits a saved successor.  255 clients connect, the one in slot 2 is
 * greeted, and when its request is dialled the oldest client, next in the list, must make room.
 */
module HitLives {
  import opened PollEvents
  import opened LiveLists
  import opened Streams
  import opened Handlers
  import opened Walks
  import opened Runs
  import opened Limits
  import opened Crowds

  /** The pool before the fatal cycle. */
  function Gathered(): seq<Stream> {
    Filled([DOOR])[2 := GreetedClient(2)]
  }

  lemma GatheredAt(i: int)
    requires 0 <= i < POOL_SIZE
    ensures Gathered()[i] == if i == 0 then DOOR else if i == 2 then GreetedClient(2) else IdleClient(i)
  {
    assert [DOOR][0] == DOOR;
  }

  lemma Gathering() returns (cs: seq<CycleEnv>, t: Sys)
    ensures Boot(-1, Pending(0)).1 && Reaches(Boot(-1, Pending(0)).0, cs, t) && Crowd(t, Gathered())
  {
    Opening();
    var first, s := Filling(Boot(-1, Pending(0)).0, [DOOR]);
    var second;
    second, t := Greeting(s, Filled([DOOR]), 2);
    ReachesTwice(Boot(-1, Pending(0)).0, first, s, second, t);
    cs := first + second;
  }

  /** The oldest client is the one to make room for the endpoint of slot 2. */
  lemma OldestClient(t: Sys, f: seq<Stream>)
    requires Crowd(t, f) && f == Gathered()[2 := Fed(GreetedClient(2), REQUEST)]
    ensures Shape(t) && Victim(t, 2) == 1 && NextOf(t.live, 2) == 1 && FreeSlot(t) == NULL
  {
    CrowdShape(t, f);
    CrowdFree(t, f);
    CrowdNext(t, f, 2);
    forall i | 0 <= i < POOL_SIZE
      ensures !t.st[i].abandoned && t.st[i].role == if i == 0 then Listener else Client
    {
      GatheredAt(i);
      assert SeatedAt(t, f, i);
    }
    assert AbandonedExcept(t, 2) == {};
    CrowdLast(t, f, PairedExcept(t, 2), 1);
  }

  lemma Guarded(t: Sys, f: seq<Stream>)
    requires Crowd(t, f) && f == Gathered()[2 := Fed(GreetedClient(2), REQUEST)] && t.st[2].revents == IN
    ensures Shape(t) && HitGuard(t, 2, DialOn(POOL_SIZE))
  {
    OldestClient(t, f);
    assert SeatedAt(t, f, 2);
    RequestRead(t.st[2]);
    assert Arrive(t, []) == t;
  }

  /** The fatal cycle. */
  lemma Striking(s: Sys) returns (c: CycleEnv)
    requires Crowd(s, Gathered())
    ensures Base(s) && Cycle(s, c).walk.hit && Cycle(s, c).walk.turns != []
  {
    var w, t := LoneWait(s, Gathered(), 2, REQUEST, IN);
    var e := DialOn(POOL_SIZE);
    Guarded(t, Gathered()[2 := Fed(GreetedClient(2), REQUEST)]);
    HitExactlyWhen(t, 2, e);
    WalkTurn(t, 2, [e]);
    FromHead(t);
    var visits := IdleUntil(t, Head(t), 2, [e]);
    WalkStartsAt(t, Head(t), visits);
    c := CycleEnv(w, visits);
  }

  /**
   * There is a life of the proxy with a cycle in which an eviction hits a saved successor; the turns of
   * that cycle are not the listed streams in order.
   */
  lemma HitHappens() returns (epfd: int, listen: Dialing, cs: seq<CycleEnv>, r: CycleResult)
    ensures Boot(epfd, listen).1 && Base(Boot(epfd, listen).0)
    ensures r in Run(Boot(epfd, listen).0, cs).cycles && !NoHits(Run(Boot(epfd, listen).0, cs))
    ensures r.walk.hit && !TurnsInOrder(r.walk, r.start.live)
  {
    epfd, listen := -1, Pending(0);
    var first, s := Gathering();
    var c := Striking(s);
    RunOn(Boot(epfd, listen).0, first, [c]);
    FirstCycle(s, [c]);
    CycleTurns(s, c);
    cs, r := first + [c], Cycle(s, c);
  }
}
