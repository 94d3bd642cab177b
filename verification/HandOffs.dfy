/**
 * The hand-off between the two sides of a promoted pair, on its own: which schedules of events can
 * stall or double a direction, and exactly when none can.
 */
module HandOffs {
  import opened Bytes
  import opened PollEvents
  import opened LiveLists
  import opened Socks
  import opened Streams
  import opened Handlers
  import opened Relations

  /** One turn on a side of a forwarding pair; None when the turn abandons the pair. */
  function PairTurn(me: Stream, nb: Stream, e: Env): Option<(Stream, Stream)> {
    if ForwardData(me, nb, e).Some? then ForwardData(me, nb, e)
    else if Drains(me) && DrainQueue(me, e).Some? then Some((DrainQueue(me, e).value, nb))
    else None
  }

  /** That is what the handler does: both sides as computed, or both abandoned. */
  lemma PairTurnIsHandler(s: Sys, i: int, e: Env)
    requires Good(s) && i in s.live && !s.st[i].abandoned
    requires s.st[i].level == Forwarding && s.st[i].neighbour != NULL
    ensures var j := s.st[i].neighbour;
      var t := HandleEvents(s, i, e).s;
      match PairTurn(s.st[i], s.st[j], e)
      case Some((x, y)) => t.st == s.st[i := x][j := y]
      case None => t.live == s.live && t.st[i].abandoned && t.st[j].abandoned
  {
    assert RelatedAt(s, i) && Mutual(s, i);
    if !Forwards(s, i, e) && Drains(s.st[i]) && DrainQueue(s.st[i], e).Some? {
      var j := s.st[i].neighbour;
      assert s.st[i := DrainQueue(s.st[i], e).value][j := s.st[j]] == s.st[i := DrainQueue(s.st[i], e).value];
    } else if !Forwards(s, i, e) && !Drains(s.st[i]) {
      ByRoleAbandons(s, i, e);
    }
  }

  lemma ByRoleAbandons(s: Sys, i: int, e: Env)
    requires Base(s) && i in s.live && IsSlot(i) && s.st[i].level == Forwarding && s.st[i].role != Listener
    requires IsSlot(s.st[i].neighbour)
    ensures var t := ByRole(s, i, e).s;
      && t.live == s.live && |t.st| == POOL_SIZE && t.st[i].abandoned && t.st[s.st[i].neighbour].abandoned
  {
  }

  /** A side of the pair gets these events and these answers. */
  datatype Turn = Turn(client: bool, revents: Events, e: Env)

  function TakeTurn(client: Stream, endpoint: Stream, t: Turn): Option<(Stream, Stream)> {
    if t.client then PairTurn(client.(revents := t.revents), endpoint, t.e)
    else
      match PairTurn(endpoint.(revents := t.revents), client, t.e)
      case Some((n, c)) => Some((c, n))
      case None => None
  }

  /** The pair, client first, after a schedule of turns, unless one of them abandons it. */
  function PairRun(client: Stream, endpoint: Stream, turns: seq<Turn>): Option<(Stream, Stream)>
    decreases |turns|
  {
    if turns == [] then Some((client, endpoint))
    else
      match TakeTurn(client, endpoint, turns[0])
      case Some((c, n)) => PairRun(c, n, turns[1..])
      case None => None
  }

  /** In each direction exactly one side is armed. */
  predicate Armed(client: Stream, endpoint: Stream) {
    client.events.rd != endpoint.events.wr && endpoint.events.rd != client.events.wr
  }

  /** No schedule ever stalls or doubles a direction before the pair is abandoned. */
  ghost predicate NeverStalls(client: Stream, endpoint: Stream) {
    forall turns :: PairRun(client, endpoint, turns).Some? ==>
      Armed(PairRun(client, endpoint, turns).value.0, PairRun(client, endpoint, turns).value.1)
  }

  predicate JustPromoted(client: Stream, endpoint: Stream) {
    && client.role == Client && client.level == Forwarding && client.events == IN
    && endpoint.role == Endpoint && endpoint.level == Forwarding && endpoint.events == IN
  }

  /** Promotion leaves such a pair, with nothing forwarded yet, and notes whether the reply had been drained. */
  lemma PromotionIsStart(s: Sys, i: int)
    requires Good(s) && i in s.live && !s.st[i].abandoned
    requires s.st[i].role == Endpoint && s.st[i].level == Connecting && s.st[i].neighbour != NULL
    ensures var t := Promote(s, i);
      var client, endpoint := t.st[s.st[i].neighbour], t.st[i];
      && JustPromoted(client, endpoint) && (client.drained <==> client.queue == [])
      && client.sock.sent == client.sock.passed == client.sock.said == [] && client.sock.arrived == client.sock.unread == s.st[s.st[i].neighbour].sock.unread
      && endpoint.sock.sent == endpoint.sock.passed == endpoint.sock.said == [] && endpoint.sock.arrived == endpoint.sock.unread == s.st[i].sock.unread
  {
    assert RelatedAt(s, i) && Mutual(s, i);
  }

  lemma ForwardArmed(me: Stream, nb: Stream, e: Env)
    requires ForwardData(me, nb, e).Some? && Armed(me, nb)
    ensures var (x, y) := ForwardData(me, nb, e).value;
      && x.role == me.role && x.queue == me.queue && y.role == nb.role && y.queue == nb.queue && Armed(x, y)
  {
  }

  lemma TurnArmed(client: Stream, endpoint: Stream, t: Turn)
    requires client.role == Client && endpoint.role == Endpoint
    requires Armed(client, endpoint) && client.queue == []
    requires TakeTurn(client, endpoint, t).Some?
    ensures var (c, n) := TakeTurn(client, endpoint, t).value;
      c.role == Client && n.role == Endpoint && Armed(c, n) && c.queue == []
  {
    if t.client {
      var me := client.(revents := t.revents);
      assert !Drains(me);
      ForwardArmed(me, endpoint, t.e);
    } else {
      var me := endpoint.(revents := t.revents);
      assert !Drains(me);
      ForwardArmed(me, client, t.e);
    }
  }

  lemma {:induction false} DrainedRunArmed(client: Stream, endpoint: Stream, turns: seq<Turn>)
    requires client.role == Client && endpoint.role == Endpoint
    requires Armed(client, endpoint) && client.queue == []
    requires PairRun(client, endpoint, turns).Some?
    ensures Armed(PairRun(client, endpoint, turns).value.0, PairRun(client, endpoint, turns).value.1)
    decreases |turns|
  {
    if turns != [] {
      TurnArmed(client, endpoint, turns[0]);
      var (c, n) := TakeTurn(client, endpoint, turns[0]).value;
      DrainedRunArmed(c, n, turns[1..]);
    }
  }

  /** The endpoint becomes readable, then the client writable. */
  function Exchange(e: Env): seq<Turn> {
    [Turn(false, IN, e), Turn(true, OUT, e)]
  }

  /** There is room in the output buffers, and send takes a chunk or the whole reply. */
  function Flowing(client: Stream): Env {
    Env([], -1, true, true, NoSocket, FORWARD_CHUNK, FORWARD_CHUNK + |client.queue|)
  }

  /**
   * A schedule for a pair whose reply is still queued: what the endpoint has received is forwarded, and
   * then its connection is closed, so that it becomes readable once more with nothing to read.
   */
  function StallingTurns(unread: seq<byte>, e: Env): seq<Turn>
    decreases |unread|
  {
    if unread == [] then Exchange(e) else Exchange(e) + StallingTurns(unread[Min(FORWARD_CHUNK, |unread|)..], e)
  }

  /** One chunk is forwarded, and the pair is as it was but for that chunk. */
  lemma ChunkForwarded(client: Stream, endpoint: Stream, e: Env)
    requires JustPromoted(client, endpoint) && client.queue != [] && endpoint.sock.unread != [] && e == Flowing(client)
    ensures PairRun(client, endpoint, Exchange(e)).Some?
    ensures var (c, n) := PairRun(client, endpoint, Exchange(e)).value;
      && JustPromoted(c, n) && c.queue == client.queue
      && n.sock.unread == endpoint.sock.unread[Min(FORWARD_CHUNK, |endpoint.sock.unread|)..]
  {
    var turns := Exchange(e);
    var (c, n) := TakeTurn(client, endpoint, turns[0]).value;
    var (c', n') := TakeTurn(c, n, turns[1]).value;
    assert PairRun(c, n, turns[1..]) == PairRun(c', n', turns[1..][1..]) == Some((c', n'));
  }

  /** Nothing is left to forward, so the reply is sent instead, and the endpoint is not read any more. */
  lemma ReplyStalls(client: Stream, endpoint: Stream, e: Env)
    requires JustPromoted(client, endpoint) && client.queue != [] && endpoint.sock.unread == [] && e == Flowing(client)
    ensures PairRun(client, endpoint, Exchange(e)).Some?
    ensures var (c, n) := PairRun(client, endpoint, Exchange(e)).value; !Armed(c, n)
  {
    var turns := Exchange(e);
    var (c, n) := TakeTurn(client, endpoint, turns[0]).value;
    var (c', n') := TakeTurn(c, n, turns[1]).value;
    assert PairRun(c, n, turns[1..]) == PairRun(c', n', turns[1..][1..]) == Some((c', n'));
  }

  lemma {:induction false} RunThenRun(client: Stream, endpoint: Stream, a: seq<Turn>, b: seq<Turn>)
    requires PairRun(client, endpoint, a).Some?
    ensures var (c, n) := PairRun(client, endpoint, a).value; PairRun(client, endpoint, a + b) == PairRun(c, n, b)
    decreases |a|
  {
    if a == [] {
      assert a + b == b;
    } else {
      var (c, n) := TakeTurn(client, endpoint, a[0]).value;
      RunThenRun(c, n, a[1..], b);
      assert (a + b)[1..] == a[1..] + b;
    }
  }

  lemma {:induction false} QueuedReplyStalls(client: Stream, endpoint: Stream, e: Env)
    requires JustPromoted(client, endpoint) && client.queue != [] && e == Flowing(client)
    ensures var run := PairRun(client, endpoint, StallingTurns(endpoint.sock.unread, e));
      run.Some? && !Armed(run.value.0, run.value.1)
    decreases |endpoint.sock.unread|
  {
    var unread := endpoint.sock.unread;
    if unread == [] {
      ReplyStalls(client, endpoint, e);
    } else {
      ChunkForwarded(client, endpoint, e);
      var (c, n) := PairRun(client, endpoint, Exchange(e)).value;
      QueuedReplyStalls(c, n, e);
      RunThenRun(client, endpoint, Exchange(e), StallingTurns(n.sock.unread, e));
    }
  }

  /**
   * The hand-off is safe under every schedule exactly when the reply had left the queue before the
   * pair was promoted: promotion overwrites the client's events, and a reply sent after it resets
   * them once more while the endpoint has already stopped waiting (src/proxy.c:360-372, 395-403).
   */
  lemma HandOffExactlyWhenDrained(client: Stream, endpoint: Stream)
    requires JustPromoted(client, endpoint)
    ensures NeverStalls(client, endpoint) <==> client.queue == []
  {
    if client.queue == [] {
      forall turns | PairRun(client, endpoint, turns).Some?
        ensures Armed(PairRun(client, endpoint, turns).value.0, PairRun(client, endpoint, turns).value.1)
      {
        DrainedRunArmed(client, endpoint, turns);
      }
    } else {
      QueuedReplyStalls(client, endpoint, Flowing(client));
    }
  }
}
