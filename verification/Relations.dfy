/**
 * The relation graph.  A client and its endpoint point at each other, are abandoned together and
 * forward together; a forwarding pair never loses, duplicates or reorders a byte in either
 * direction, and if the client's reply was drained first it never stalls.  Proved of every handler,
 * for exactly those turns in which no eviction takes a stale stream.
 */
module Relations {
  import opened Bytes
  import opened PollEvents
  import opened LiveLists
  import opened Socks
  import opened Streams
  import opened Handlers
  import opened BaseInvariant

  predicate Opposite(a: Role, b: Role) {
    (a == Client && b == Endpoint) || (a == Endpoint && b == Client)
  }

  /** `i` and its neighbour are live, point at each other and share their fate. */
  predicate Mutual(s: Sys, i: int)
    requires |s.st| == POOL_SIZE && IsSlot(i)
  {
    var j := s.st[i].neighbour;
    && IsSlot(j) && j in s.live
    && s.st[j].neighbour == i
    && s.st[j].abandoned == s.st[i].abandoned
    && Opposite(s.st[i].role, s.st[j].role)
    && (s.st[i].level == Forwarding <==> s.st[j].level == Forwarding)
  }

  /** Who has a neighbour at which level. */
  predicate Bonded(x: Stream) {
    match x.role
    case Listener => x.neighbour == NULL
    case Client => if x.level == Pass || x.level == Forwarding then x.neighbour != NULL else x.level in {Ver, Auth, Req} && x.neighbour == NULL
    case Endpoint => (x.level == Connecting || x.level == Forwarding) && x.neighbour != NULL
    case Invalid => false
  }

  /** Slot `j` is free, or holds a stream that came after the events were reported. */
  predicate Unheard(s: Sys, j: int)
    requires |s.st| == POOL_SIZE
  {
    IsSlot(j) && j in s.live ==> !s.st[j].revents.Any()
  }

  /** Once an eviction has freed its neighbour's slot, an abandoned stream may point at a newcomer. */
  predicate RelatedAt(s: Sys, i: int)
    requires |s.st| == POOL_SIZE && IsSlot(i)
  {
    && (!s.st[i].abandoned ==> Bonded(s.st[i]))
    && (s.st[i].neighbour != NULL ==>
          Mutual(s, i) || (s.st[i].abandoned && s.evictions > 0 && Unheard(s, s.st[i].neighbour)))
  }

  /**
   * Abandoned, with a `neighbour` that is out of date: its slot now holds a stream in service that has
   * a neighbour of its own.
   */
  predicate Stale(s: Sys, v: int)
    requires |s.st| == POOL_SIZE
  {
    v != NULL && IsSlot(v) &&
    var j := s.st[v].neighbour;
    s.st[v].abandoned && IsSlot(j) && j in s.live && !s.st[j].abandoned && s.st[j].neighbour != NULL
  }

  ghost predicate Related(s: Sys)
    requires Shape(s)
  {
    forall i :: i in s.live ==> RelatedAt(s, i)
  }

  /** In each direction exactly one side waits: the source to read, or the destination to write. */
  predicate HandOff(client: Stream, endpoint: Stream) {
    && client.queue == []
    && client.events.rd != endpoint.events.wr
    && endpoint.events.rd != client.events.wr
  }

  /** `whole` consists of `a` and `b`, each in its own order. */
  predicate Interleaved(a: seq<byte>, b: seq<byte>, whole: seq<byte>)
    decreases |whole|
  {
    if whole == [] then a == [] && b == []
    else
      var w := |whole| - 1;
      || (a != [] && a[|a| - 1] == whole[w] && Interleaved(a[..|a| - 1], b, whole[..w]))
      || (b != [] && b[|b| - 1] == whole[w] && Interleaved(a, b[..|b| - 1], whole[..w]))
  }

  /** `whole` ends with `part`. */
  predicate Ends(part: seq<byte>, whole: seq<byte>) {
    |part| <= |whole| && part == whole[|whole| - |part|..]
  }

  /** What was forwarded, then what is still unread, is what arrived since promotion. */
  predicate Carries(src: Stream, dst: Stream) {
    dst.sock.passed + src.sock.unread == src.sock.arrived
  }

  /**
   * Both directions carry their bytes.  An endpoint is sent what was forwarded and nothing else; a
   * client is sent that and, among it, what was left of the grant at promotion, as far as that has left
   * the queue; each in order and once.
   */
  predicate PairSafe(client: Stream, endpoint: Stream) {
    && Carries(client, endpoint) && Carries(endpoint, client)
    && endpoint.sock.sent == endpoint.sock.passed
    && Interleaved(client.sock.passed, client.sock.said, client.sock.sent)
    && Ends(client.sock.said + client.queue, GRANT)
    && (client.drained ==> HandOff(client, endpoint) && client.sock.sent == client.sock.passed)
  }

  /** A pair in service is safe; before promotion a client has nothing but the end of the grant queued. */
  predicate SafeAt(s: Sys, i: int)
    requires |s.st| == POOL_SIZE && IsSlot(i)
  {
    var x := s.st[i];
    x.role == Client && !x.abandoned ==>
      && (x.level == Pass ==> Ends(x.queue, GRANT))
      && (x.level == Forwarding && IsSlot(x.neighbour) ==> PairSafe(x, s.st[x.neighbour]))
  }

  ghost predicate PairsSafe(s: Sys)
    requires Shape(s)
  {
    forall i :: i in s.live ==> SafeAt(s, i)
  }

  ghost predicate Good(s: Sys) {
    Base(s) && Related(s) && PairsSafe(s)
  }

  // ---------------------------------------------------------------------------------------------
  // Abandoning, evicting, admitting
  // ---------------------------------------------------------------------------------------------

  lemma AbandonRelated(s: Sys, i: int)
    requires Shape(s) && Related(s) && PairsSafe(s) && i in s.live
    requires !Stale(s, i)
    ensures Shape(Abandon(s, i)) && Related(Abandon(s, i)) && PairsSafe(Abandon(s, i))
  {
    AbandonShape(s, i);
    var t := Abandon(s, i);
    forall x | x in t.live
      ensures RelatedAt(t, x) && SafeAt(t, x)
    {
      AbandonRelatedAt(s, i, x);
    }
  }

  lemma AbandonRelatedAt(s: Sys, i: int, x: int)
    requires Shape(s) && Related(s) && PairsSafe(s) && i in s.live && x in s.live && !Stale(s, i)
    ensures RelatedAt(Abandon(s, i), x) && SafeAt(Abandon(s, i), x)
  {
    var t := Abandon(s, i);
    assert RelatedAt(s, i) && RelatedAt(s, x) && SafeAt(s, x);
    var y := s.st[x].neighbour;
    if y != NULL && Mutual(s, x) {
      assert RelatedAt(s, y);
      assert Mutual(t, x);
    }
  }

  /** Nothing still in service points at an abandoned stream, so its slot can be freed. */
  lemma RemoveRelated(s: Sys, i: int, evictions: nat)
    requires Shape(s) && Related(s) && PairsSafe(s) && i in s.live && s.st[i].abandoned && evictions > 0
    ensures var t := Remove(s, i).(evictions := evictions); Shape(t) && Related(t) && PairsSafe(t)
  {
    RemoveShape(s, i);
    var t := Remove(s, i).(evictions := evictions);
    forall x | x in t.live
      ensures RelatedAt(t, x) && SafeAt(t, x)
    {
      assert x in s.live && x != i;
      assert RelatedAt(s, x) && SafeAt(s, x);
    }
  }

  lemma EvictRelated(s: Sys, excl: int)
    requires Shape(s) && Related(s) && PairsSafe(s) && !Stale(s, Victim(s, excl))
    ensures Shape(Evict(s, excl)) && Related(Evict(s, excl)) && PairsSafe(Evict(s, excl))
  {
    var v := Victim(s, excl);
    if v != NULL {
      AbandonRelated(s, v);
      RemoveRelated(Abandon(s, v), v, s.evictions + 1);
    }
  }

  /** As long as nobody was evicted nobody is stale. */
  lemma NobodyStale(s: Sys, i: int)
    requires Shape(s) && Related(s) && s.evictions == 0 && i in s.live
    ensures !Stale(s, i)
  {
    assert RelatedAt(s, i);
  }

  /**
   * A stream that has events to handle and no neighbour is not touched by an eviction that spares it:
   * no stale `neighbour` names it.
   */
  lemma EvictSpares(s: Sys, excl: int, i: int)
    requires Shape(s) && Related(s) && i in s.live && i != Victim(s, excl)
    requires !s.st[i].abandoned && s.st[i].neighbour == NULL && s.st[i].revents.Any()
    ensures i in Evict(s, excl).live && Evict(s, excl).st[i] == s.st[i]
  {
    EvictShape(s, excl);
    var v := Victim(s, excl);
    if v != NULL {
      assert RelatedAt(s, v);
      assert s.st[v].neighbour != i;
      EvictionLeaves(s, v, i);
    }
  }

  lemma EvictionLeaves(s: Sys, v: int, i: int)
    requires Shape(s) && v in s.live && IsSlot(i) && i != v && i != s.st[v].neighbour
    ensures Shape(Abandon(s, v)) && Remove(Abandon(s, v), v).st[i] == s.st[i]
  {
    AbandonShape(s, v);
  }

  /** A new stream without a neighbour disturbs no pair. */
  lemma AdmitRelated(s: Sys, fd: int)
    requires Sound(s) && Related(s) && PairsSafe(s) && FreeSlot(s) != NULL
    ensures var t := Admit(s, fd, Client, Ver, IN); Shape(t) && Related(t) && PairsSafe(t)
  {
    AdmitShape(s, fd, Client, Ver, IN);
    var t := Admit(s, fd, Client, Ver, IN);
    var k := FreeSlot(s);
    forall x | x in t.live
      ensures RelatedAt(t, x) && SafeAt(t, x)
    {
      if x in s.live {
        assert RelatedAt(s, x) && SafeAt(s, x);
        Unaffected(s, k, t, x);
      }
    }
  }

  lemma Unaffected(s: Sys, k: int, t: Sys, x: int)
    requires Shape(s) && |t.st| == POOL_SIZE && t.evictions == s.evictions && IsSlot(k) && k !in s.live && t.live == [k] + s.live
    requires x in s.live && RelatedAt(s, x) && SafeAt(s, x)
    requires forall y :: IsSlot(y) && y != k ==> t.st[y] == s.st[y]
    requires !t.st[k].revents.Any()
    ensures RelatedAt(t, x) && SafeAt(t, x)
  {
    var y := s.st[x].neighbour;
    if y != NULL && Mutual(s, x) {
      assert Mutual(t, x);
    }
  }

  /** A new endpoint joined to a client in the request stage. */
  lemma JoinRelated(s: Sys, i: int, fd: int)
    requires Sound(s) && Related(s) && PairsSafe(s) && FreeSlot(s) != NULL
    requires i in s.live && s.st[i].role == Client && s.st[i].level == Req && !s.st[i].abandoned && s.st[i].revents.Any()
    ensures var t := Join(Admit(s, fd, Endpoint, Connecting, INOUT), i, FreeSlot(s));
      Shape(t) && Related(t) && PairsSafe(t)
  {
    AdmitShape(s, fd, Endpoint, Connecting, INOUT);
    var k := FreeSlot(s);
    var t := Join(Admit(s, fd, Endpoint, Connecting, INOUT), i, k);
    assert RelatedAt(s, i);
    PairAdded(s, i, k, t);
  }

  lemma PairAdded(s: Sys, i: int, k: int, t: Sys)
    requires Shape(s) && Shape(t) && t.evictions == s.evictions && Related(s) && PairsSafe(s)
    requires i in s.live && IsSlot(k) && k !in s.live && t.live == [k] + s.live
    requires s.st[i].role == Client && !s.st[i].abandoned && s.st[i].neighbour == NULL && s.st[i].revents.Any()
    requires forall y :: IsSlot(y) && y != i && y != k ==> t.st[y] == s.st[y]
    requires t.st[i].role == Client && t.st[i].level == Pass && !t.st[i].abandoned && t.st[i].neighbour == k && t.st[i].queue == GRANT
    requires t.st[k].role == Endpoint && t.st[k].level == Connecting && !t.st[k].abandoned && t.st[k].neighbour == i
    requires !t.st[k].revents.Any()
    ensures Related(t) && PairsSafe(t)
  {
    forall x | x in t.live
      ensures RelatedAt(t, x) && SafeAt(t, x)
    {
      if x != i && x != k {
        assert x in s.live && RelatedAt(s, x) && SafeAt(s, x);
        Bystander(s, i, k, t, x);
      }
    }
  }

  /** A stream other than the two that change keeps its relation: it pointed at neither. */
  lemma Bystander(s: Sys, i: int, k: int, t: Sys, x: int)
    requires Shape(s) && Shape(t) && t.evictions == s.evictions
    requires x in s.live && x != i && x != k && i in s.live && IsSlot(k) && t.live == [k] + s.live && k !in s.live
    requires RelatedAt(s, x) && SafeAt(s, x) && s.st[i].neighbour == NULL && !s.st[i].abandoned && s.st[i].revents.Any()
    requires forall y :: IsSlot(y) && y != i && y != k ==> t.st[y] == s.st[y]
    requires !t.st[i].abandoned && !t.st[k].revents.Any()
    ensures RelatedAt(t, x) && SafeAt(t, x)
  {
    var y := s.st[x].neighbour;
    if y != NULL && Mutual(s, x) {
      assert Mutual(t, x);
    }
  }

  // ---------------------------------------------------------------------------------------------
  // Changes within the graph
  // ---------------------------------------------------------------------------------------------

  /** The graph is the same, and so is everything forwarding depends on in streams still in service. */
  ghost predicate SameBonds(s: Sys, t: Sys) {
    && t.live == s.live && t.evictions == s.evictions
    && |s.st| == POOL_SIZE && |t.st| == POOL_SIZE
    && forall i :: IsSlot(i) ==>
         && (s.evictions > 0 ==> t.st[i].revents == s.st[i].revents)
         && t.st[i].role == s.st[i].role && t.st[i].level == s.st[i].level
         && t.st[i].abandoned == s.st[i].abandoned && t.st[i].neighbour == s.st[i].neighbour
         && (!s.st[i].abandoned ==>
               && t.st[i].events == s.st[i].events && t.st[i].queue == s.st[i].queue
               && t.st[i].sock == s.st[i].sock && t.st[i].drained == s.st[i].drained)
  }

  lemma SameBondsRelated(s: Sys, t: Sys)
    requires Shape(s) && Shape(t) && SameBonds(s, t) && Related(s) && PairsSafe(s)
    ensures Related(t) && PairsSafe(t)
  {
    forall x | x in t.live
      ensures RelatedAt(t, x) && SafeAt(t, x)
    {
      assert IsSlot(x) && RelatedAt(s, x) && SafeAt(s, x);
      if s.st[x].neighbour != NULL && Mutual(s, x) {
        assert Mutual(t, x);
      }
    }
  }

  predicate SameAccount(x: Sock, y: Sock) {
    x.unread == y.unread && x.arrived == y.arrived && x.passed == y.passed
  }

  /** A stream changes on its own, staying on the same side of promotion. */
  lemma PutRelated(s: Sys, i: int, x: Stream)
    requires Shape(s) && Related(s) && PairsSafe(s) && i in s.live && !s.st[i].abandoned
    requires x.role == s.st[i].role && x.neighbour == s.st[i].neighbour && x.revents == s.st[i].revents && !x.abandoned && Bonded(x)
    requires x.level == Forwarding <==> s.st[i].level == Forwarding
    requires x.level == Pass ==> Ends(x.queue, GRANT)
    requires x.level == Forwarding ==>
      && x.role == Client && !x.drained && !s.st[i].drained && SameAccount(x.sock, s.st[i].sock)
      && Interleaved(x.sock.passed, x.sock.said, x.sock.sent) && Ends(x.sock.said + x.queue, GRANT)
    ensures Shape(Put(s, i, x)) && Related(Put(s, i, x)) && PairsSafe(Put(s, i, x))
  {
    var t := Put(s, i, x);
    forall y | y in t.live
      ensures RelatedAt(t, y) && SafeAt(t, y)
    {
      assert RelatedAt(s, y) && SafeAt(s, y);
      if s.st[y].neighbour != NULL && Mutual(s, y) {
        assert Mutual(t, y);
      }
    }
  }

  predicate SafeCouple(x: Stream, y: Stream) {
    if x.role == Client then PairSafe(x, y) else PairSafe(y, x)
  }

  /** A stream and its neighbour change together and are both forwarding afterwards. */
  lemma CoupleRelated(s: Sys, i: int, x: Stream, y: Stream)
    requires Shape(s) && Related(s) && PairsSafe(s) && i in s.live && !s.st[i].abandoned && s.st[i].neighbour != NULL
    requires var nb := s.st[s.st[i].neighbour];
      && x == s.st[i].(level := x.level, events := x.events, sock := x.sock, drained := x.drained)
      && y == nb.(level := y.level, events := y.events, sock := y.sock, drained := y.drained)
    requires x.level == Forwarding && y.level == Forwarding && SafeCouple(x, y)
    ensures var t := Put(Put(s, i, x), s.st[i].neighbour, y); Shape(t) && Related(t) && PairsSafe(t)
  {
    var j := s.st[i].neighbour;
    var t := Put(Put(s, i, x), j, y);
    assert RelatedAt(s, i) && RelatedAt(s, j);
    forall z | z in t.live
      ensures RelatedAt(t, z) && SafeAt(t, z)
    {
      if z != i && z != j {
        assert RelatedAt(s, z) && SafeAt(s, z);
        Uninvolved(s, i, t, z);
      }
    }
  }

  lemma Uninvolved(s: Sys, i: int, t: Sys, z: int)
    requires Shape(s) && Shape(t) && t.live == s.live && t.evictions == s.evictions
    requires i in s.live && s.st[i].neighbour != NULL && Mutual(s, i)
    requires z in s.live && z != i && z != s.st[i].neighbour && RelatedAt(s, z) && SafeAt(s, z)
    requires forall k :: IsSlot(k) && k != i && k != s.st[i].neighbour ==> t.st[k] == s.st[k]
    requires t.st[i].revents == s.st[i].revents && t.st[s.st[i].neighbour].revents == s.st[s.st[i].neighbour].revents
    ensures RelatedAt(t, z) && SafeAt(t, z)
  {
    if s.st[z].neighbour != NULL && Mutual(s, z) {
      assert Mutual(t, z);
    }
  }

  // ---------------------------------------------------------------------------------------------
  // Forwarding and promotion on a pair
  // ---------------------------------------------------------------------------------------------

  /** Sending more, forwarded or from the queue, goes on with the interleaving. */
  lemma {:induction false} InterleavedMore(a: seq<byte>, b: seq<byte>, whole: seq<byte>, more: seq<byte>)
    requires Interleaved(a, b, whole)
    ensures Interleaved(a + more, b, whole + more) && Interleaved(a, b + more, whole + more)
    decreases |more|
  {
    if more == [] {
      assert whole + more == whole && a + more == a && b + more == b;
    } else {
      var m := |more| - 1;
      InterleavedMore(a, b, whole, more[..m]);
      assert (whole + more)[..|whole| + m] == whole + more[..m];
      assert (a + more)[..|a| + m] == a + more[..m];
      assert (b + more)[..|b| + m] == b + more[..m];
    }
  }

  /**
   * Whatever prefix send accepts, the bytes it took and those left are the bytes there were, and the
   * ones it took are the last that were sent.
   */
  lemma SocketForwardCarries(src: Sock, dst: Sock, e: Env) returns (piece: seq<byte>)
    requires SocketForward(src, dst, e).Some?
    ensures var (src', dst') := SocketForward(src, dst, e).value;
      && src' == src.(unread := src'.unread) && src.unread == piece + src'.unread
      && dst' == dst.(sent := dst.sent + piece, passed := dst.passed + piece)
      && dst'.passed + src'.unread == dst.passed + src.unread
  {
    var (src', dst') := SocketForward(src, dst, e).value;
    var m := |src.unread| - |src'.unread|;
    piece := src.unread[..m];
    assert src.unread == src.unread[..m] + src.unread[m..];
  }

  /** One turn of forwarding on either side keeps the pair safe. */
  lemma ForwardSafe(me: Stream, nb: Stream, e: Env)
    requires Opposite(me.role, nb.role) && SafeCouple(me, nb)
    requires ForwardData(me, nb, e).Some?
    ensures var (x, y) := ForwardData(me, nb, e).value;
      && x == me.(events := x.events, sock := x.sock) && y == nb.(events := y.events, sock := y.sock)
      && SafeCouple(x, y)
  {
    if me.revents.wr {
      var piece := SocketForwardCarries(nb.sock, me.sock, e);
      if me.role == Client {
        InterleavedMore(me.sock.passed, me.sock.said, me.sock.sent, piece);
      }
    }
  }

  lemma ForwardRelated(s: Sys, i: int, e: Env)
    requires Shape(s) && Related(s) && PairsSafe(s) && i in s.live && !s.st[i].abandoned && Forwards(s, i, e)
    ensures var j := s.st[i].neighbour;
      var (x, y) := ForwardData(s.st[i], s.st[j], e).value;
      var t := Put(Put(s, i, x), j, y);
      Shape(t) && Related(t) && PairsSafe(t)
  {
    var j := s.st[i].neighbour;
    assert RelatedAt(s, i) && SafeAt(s, i);
    assert RelatedAt(s, j) && SafeAt(s, j);
    ForwardSafe(s.st[i], s.st[j], e);
    var (x, y) := ForwardData(s.st[i], s.st[j], e).value;
    CoupleRelated(s, i, x, y);
  }

  lemma PromoteRelated(s: Sys, i: int)
    requires Shape(s) && Related(s) && PairsSafe(s) && i in s.live && !s.st[i].abandoned
    requires s.st[i].role == Endpoint && s.st[i].level == Connecting && s.st[i].neighbour != NULL
    ensures Shape(Promote(s, i)) && Related(Promote(s, i)) && PairsSafe(Promote(s, i))
  {
    var j := s.st[i].neighbour;
    assert RelatedAt(s, i) && RelatedAt(s, j);
    var t := Promote(s, i);
    CoupleRelated(s, i, t.st[i], t.st[j]);
    assert t == Put(Put(s, i, t.st[i]), j, t.st[j]);
  }

  lemma {:induction false} ArriveRelated(s: Sys, arrivals: seq<Arrival>)
    requires Shape(s) && Related(s) && PairsSafe(s)
    ensures var t := Arrive(s, arrivals); Related(t) && PairsSafe(t)
    decreases |arrivals|
  {
    if arrivals != [] {
      ReceiptRelated(s, arrivals[0]);
      ArriveRelated(Receipt(s, arrivals[0]), arrivals[1..]);
    }
  }

  lemma ReceiptRelated(s: Sys, a: Arrival)
    requires Shape(s) && Related(s) && PairsSafe(s)
    ensures Shape(Receipt(s, a)) && Related(Receipt(s, a)) && PairsSafe(Receipt(s, a))
  {
    var t := Receipt(s, a);
    forall x | x in t.live
      ensures RelatedAt(t, x) && SafeAt(t, x)
    {
      assert RelatedAt(s, x) && SafeAt(s, x);
      if s.st[x].neighbour != NULL && Mutual(s, x) {
        assert Mutual(t, x);
      }
      if IsSlot(t.st[x].neighbour) {
        ReceiptCarries(s, a, x, t.st[x].neighbour);
        ReceiptCarries(s, a, t.st[x].neighbour, x);
      }
    }
  }

  lemma ReceiptCarries(s: Sys, a: Arrival, x: int, y: int)
    requires Shape(s) && IsSlot(x) && IsSlot(y)
    ensures var t := Receipt(s, a); Carries(s.st[x], s.st[y]) ==> Carries(t.st[x], t.st[y])
  {
    if a.slot in s.live && a.slot == x && Carries(s.st[x], s.st[y]) {
      assert s.st[y].sock.passed + (s.st[x].sock.unread + a.bytes) == (s.st[y].sock.passed + s.st[x].sock.unread) + a.bytes;
    }
  }

  // ---------------------------------------------------------------------------------------------
  // Handlers
  // ---------------------------------------------------------------------------------------------

  lemma HandleNewStreamRelated(s: Sys, i: int, e: Env)
    requires Base(s) && Related(s) && PairsSafe(s) && i in s.live
    ensures var r := HandleNewStream(s, i, e); Shape(r.s) && (!Stale(s, r.victim) ==> Related(r.s) && PairsSafe(r.s))
  {
    var r := HandleNewStream(s, i, e);
    HandleNewStreamBase(s, i, e);
    if s.st[i].revents.rd && Fresh(s, e.accepted) && !Stale(s, r.victim) {
      var o := OpenFd(s, e.accepted);
      OpenBase(s, e.accepted);
      SameBondsRelated(s, o);
      if !e.nonblocking {
        SameBondsRelated(s, r.s);
      } else if FreeSlot(o) != NULL {
        AdmitRelated(o, e.accepted);
      } else {
        EvictionFreesOneSlot(o, NULL);
        EvictShape(o, NULL);
        EvictRelated(o, NULL);
        AdmitRelated(Evict(o, NULL), e.accepted);
      }
    }
  }

  /** A client in the request stage that has events to handle. */
  predicate Asking(s: Sys, i: int)
    requires |s.st| == POOL_SIZE
  {
    IsSlot(i) && s.st[i].role == Client && s.st[i].level == Req && !s.st[i].abandoned && s.st[i].revents.Any()
  }

  lemma SeatJoinRelated(s: Sys, i: int, fd: int)
    requires Sound(s) && Related(s) && PairsSafe(s) && i in s.live && Asking(s, i)
    ensures var seat := Seat(s, fd, i, Endpoint, Connecting, INOUT);
      var t := Join(seat.s, i, seat.slot);
      !Stale(s, seat.victim) ==> Shape(t) && Related(t) && PairsSafe(t)
  {
    if FreeSlot(s) != NULL {
      JoinRelated(s, i, fd);
    } else {
      EvictionFreesOneSlot(s, i);
      if !Stale(s, Victim(s, i)) {
        EvictShape(s, i);
        EvictRelated(s, i);
        assert RelatedAt(s, i);
        EvictSpares(s, i, i);
        JoinRelated(Evict(s, i), i, fd);
      }
    }
  }

  lemma DialledRelated(s: Sys, i: int, fd: int)
    requires Base(s) && Related(s) && PairsSafe(s) && i in s.live && Fresh(s, fd) && Asking(s, i)
    ensures var seat := Seat(OpenFd(s, fd), fd, i, Endpoint, Connecting, INOUT);
      var t := Join(seat.s, i, seat.slot);
      !Stale(s, seat.victim) ==> Shape(t) && Related(t) && PairsSafe(t)
  {
    OpenBase(s, fd);
    SameBondsRelated(s, OpenFd(s, fd));
    SeatJoinRelated(OpenFd(s, fd), i, fd);
  }

  lemma SetupEndpointRelated(s: Sys, i: int, e: Env)
    requires Base(s) && Related(s) && PairsSafe(s) && i in s.live && Asking(s, i)
    ensures var r := SetupEndpoint(s, i, e); Shape(r.s) && (!Stale(s, r.victim) ==> Related(r.s) && PairsSafe(r.s))
  {
    SetupEndpointBase(s, i, e);
    match e.dialing
    case NoSocket =>
    case Refused(fd) =>
      if Fresh(s, fd) {
        var o := CloseFd(OpenFd(s, fd), fd);
        OpenBase(s, fd);
        SameBondsRelated(s, o);
        AbandonRelated(o, i);
      }
    case Pending(fd) =>
      if Fresh(s, fd) {
        DialledRelated(s, i, fd);
      }
  }

  /** A client that is abandoned right after it read something. */
  lemma ReadThenAbandonRelated(s: Sys, i: int)
    requires Base(s) && Related(s) && PairsSafe(s) && i in s.live && !s.st[i].abandoned
    ensures var t := Abandon(Put(s, i, Read(s.st[i])), i); Shape(t) && Related(t) && PairsSafe(t)
  {
    AbandonRelated(s, i);
    PutBase(s, i, Read(s.st[i]));
    AbandonShape(Put(s, i, Read(s.st[i])), i);
    SameBondsRelated(Abandon(s, i), Abandon(Put(s, i, Read(s.st[i])), i));
  }

  lemma HandleSocksRelated(s: Sys, i: int, e: Env)
    requires Base(s) && Related(s) && PairsSafe(s) && i in s.live && !s.st[i].abandoned && s.st[i].role == Client
    ensures var r := HandleSocks(s, i, e); Shape(r.s) && (!Stale(s, r.victim) ==> Related(r.s) && PairsSafe(r.s))
  {
    var me := s.st[i];
    assert RelatedAt(s, i);
    if !me.revents.rd {
      AbandonRelated(s, i);
    } else {
      var x := Read(me);
      ReadThenAbandonRelated(s, i);
      PutBase(s, i, x);
      var reaction := Receive(me.level, me.queue, Chunk(me));
      if reaction != Hang {
        ReactsInHandshake(me.level, me.queue, Chunk(me));
        PutRelated(s, i, x);
        RespondRelated(Put(s, i, x), i, reaction, e);
        SameStale(s, Put(s, i, x), HandleSocks(s, i, e).victim);
      }
    }
  }

  /** What the server may answer at which level. */
  predicate InHandshake(level: Level, reaction: Reaction) {
    match reaction
    case Hang => true
    case Wait(_) => level == Req
    case Reply(next, _) => level in {Ver, Auth} && next in {Auth, Req}
    case Dial(_) => level == Req
  }

  lemma ReactsInHandshake(level: Level, queue: seq<byte>, chunk: seq<byte>)
    ensures InHandshake(level, Receive(level, queue, chunk))
  {
  }

  lemma RespondRelated(s: Sys, i: int, reaction: Reaction, e: Env)
    requires Base(s) && Related(s) && PairsSafe(s) && i in s.live && !s.st[i].abandoned && s.st[i].role == Client
    requires s.st[i].revents.Any() && InHandshake(s.st[i].level, reaction)
    ensures var r := Respond(s, i, reaction, e); Shape(r.s) && (!Stale(s, r.victim) ==> Related(r.s) && PairsSafe(r.s))
  {
    match reaction
    case Hang => AbandonRelated(s, i);
    case Wait(_) =>
    case Reply(level, bytes) => AnswerRelated(s, i, level, bytes);
    case Dial(request) =>
      if request.Host? && !e.resolved {
        AbandonRelated(s, i);
      } else {
        SetupEndpointRelated(s, i, e);
      }
  }

  lemma AnswerRelated(s: Sys, i: int, level: Level, bytes: seq<byte>)
    requires Shape(s) && Related(s) && PairsSafe(s) && i in s.live && !s.st[i].abandoned
    requires s.st[i].role == Client && s.st[i].level in {Ver, Auth, Req} && level in {Auth, Req}
    ensures var t := Put(s, i, Answer(s.st[i], level, bytes)); Shape(t) && Related(t) && PairsSafe(t)
  {
    assert RelatedAt(s, i);
    PutRelated(s, i, Answer(s.st[i], level, bytes));
  }

  /** Sending a piece of the queue keeps the account of the reply. */
  lemma DrainedReply(me: Stream, e: Env)
    requires DrainQueue(me, e).Some?
    ensures var x := DrainQueue(me, e).value;
      && x.sock.said + x.queue == me.sock.said + me.queue
      && (Ends(me.queue, GRANT) ==> Ends(x.queue, GRANT))
      && (Interleaved(me.sock.passed, me.sock.said, me.sock.sent) ==> Interleaved(x.sock.passed, x.sock.said, x.sock.sent))
  {
    var m := Accepted(e, |me.queue|);
    var piece, rest := me.queue[..m], me.queue[m..];
    assert me.queue == piece + rest;
    Associate(me.sock.said, piece, rest);
    if Interleaved(me.sock.passed, me.sock.said, me.sock.sent) {
      InterleavedMore(me.sock.passed, me.sock.said, me.sock.sent, piece);
    }
  }

  lemma DrainRelated(s: Sys, i: int, e: Env)
    requires Shape(s) && Related(s) && PairsSafe(s) && i in s.live && !s.st[i].abandoned
    requires Drains(s.st[i]) && DrainQueue(s.st[i], e).Some?
    ensures var t := Put(s, i, DrainQueue(s.st[i], e).value); Shape(t) && Related(t) && PairsSafe(t)
  {
    assert RelatedAt(s, i) && SafeAt(s, i);
    DrainedReply(s.st[i], e);
    PutRelated(s, i, DrainQueue(s.st[i], e).value);
  }

  lemma HandleEventsRelated(s: Sys, i: int, e: Env)
    requires Base(s) && Related(s) && PairsSafe(s) && i in s.live && !s.st[i].abandoned
    ensures var r := HandleEvents(s, i, e); Shape(r.s) && (!Stale(s, r.victim) ==> Related(r.s) && PairsSafe(r.s))
  {
    var me := s.st[i];
    AbandonRelated(s, i);
    if Forwards(s, i, e) {
      ForwardRelated(s, i, e);
    } else if Drains(me) {
      if DrainQueue(me, e).Some? {
        DrainRelated(s, i, e);
      }
    } else {
      match me.role
      case Listener => HandleNewStreamRelated(s, i, e);
      case Client => HandleSocksRelated(s, i, e);
      case Endpoint =>
        if me.level == Connecting && me.neighbour != NULL {
          PromoteRelated(s, i);
        }
      case Invalid =>
    }
  }

  lemma SameStale(s: Sys, t: Sys, v: int)
    requires |s.st| == POOL_SIZE && |t.st| == POOL_SIZE && t.live == s.live
    requires forall i :: IsSlot(i) ==> t.st[i].abandoned == s.st[i].abandoned && t.st[i].neighbour == s.st[i].neighbour
    ensures Stale(s, v) <==> Stale(t, v)
  {
  }

  // ---------------------------------------------------------------------------------------------
  // Stale victims
  // ---------------------------------------------------------------------------------------------

  /** `w` is in service, but the neighbour that points back at it is abandoned. */
  predicate Torn(s: Sys, w: int)
    requires |s.st| == POOL_SIZE
  {
    IsSlot(w) && w in s.live && !s.st[w].abandoned &&
    var j := s.st[w].neighbour;
    IsSlot(j) && j in s.live && s.st[j].abandoned && s.st[j].neighbour == w
  }

  lemma TornUnrelated(s: Sys, w: int)
    requires Shape(s) && Torn(s, w)
    ensures !Related(s)
  {
    assert !RelatedAt(s, w);
  }

  /** Evicting a stale stream abandons one side of a pair in service and not the other. */
  lemma StaleEvictionTears(s: Sys, excl: int) returns (w: int)
    requires Shape(s) && Related(s) && Stale(s, Victim(s, excl))
    ensures var v := Victim(s, excl);
      Shape(Evict(s, excl)) && Torn(Evict(s, excl), w) && w != v && s.st[w].neighbour != v
  {
    var v := Victim(s, excl);
    var j := s.st[v].neighbour;
    EvictShape(s, excl);
    assert RelatedAt(s, j) && Mutual(s, j);
    w := s.st[j].neighbour;
    assert RelatedAt(s, w);
    assert w in Evict(s, excl).live && j in Evict(s, excl).live;
  }

  lemma AdmitStaysTorn(s: Sys, w: int, fd: int, role: Role, level: Level, events: Events)
    requires Shape(s) && FreeSlot(s) != NULL && Torn(s, w)
    ensures Torn(Admit(s, fd, role, level, events), w)
  {
    assert FreeSlot(s) !in s.live;
  }

  lemma JoinStaysTorn(s: Sys, w: int, i: int, k: int)
    requires |s.st| == POOL_SIZE && IsSlot(i) && IsSlot(k) && Torn(s, w)
    requires s.st[i].neighbour == NULL && s.st[k].neighbour == NULL
    ensures Torn(Join(s, i, k), w)
  {
  }

  lemma StaleSeatTears(s: Sys, fd: int, excl: int, role: Role, level: Level, events: Events) returns (w: int)
    requires Sound(s) && Related(s) && Stale(s, Seat(s, fd, excl, role, level, events).victim)
    ensures Torn(Seat(s, fd, excl, role, level, events).s, w)
  {
    EvictionFreesOneSlot(s, excl);
    EvictShape(s, excl);
    w := StaleEvictionTears(s, excl);
    AdmitStaysTorn(Evict(s, excl), w, fd, role, level, events);
  }

  lemma HandleNewStreamTears(s: Sys, i: int, e: Env)
    requires Base(s) && Related(s) && i in s.live && Stale(s, HandleNewStream(s, i, e).victim)
    ensures Shape(HandleNewStream(s, i, e).s) && !Related(HandleNewStream(s, i, e).s)
  {
    HandleNewStreamBase(s, i, e);
    var o := OpenFd(s, e.accepted);
    OpenRelated(s, e.accepted);
    var w := StaleSeatTears(o, e.accepted, NULL, Client, Ver, IN);
    TornUnrelated(HandleNewStream(s, i, e).s, w);
  }

  lemma OpenRelated(s: Sys, fd: int)
    requires Base(s) && Related(s) && Fresh(s, fd)
    ensures Sound(OpenFd(s, fd)) && Related(OpenFd(s, fd))
  {
    OpenBase(s, fd);
    var o := OpenFd(s, fd);
    forall x | x in o.live
      ensures RelatedAt(o, x)
    {
      assert RelatedAt(s, x);
      if s.st[x].neighbour != NULL && Mutual(s, x) {
        assert Mutual(o, x);
      }
    }
  }

  /** The client that asks for an endpoint is itself untouched by the eviction it may cause. */
  lemma SeatKeepsAsker(s: Sys, i: int, fd: int)
    requires Sound(s) && Related(s) && i in s.live && Asking(s, i) && s.st[i].neighbour == NULL
    ensures var r := Seat(s, fd, i, Endpoint, Connecting, INOUT);
      r.slot != i && r.s.st[i] == s.st[i] && r.s.st[r.slot].neighbour == NULL
  {
    if FreeSlot(s) == NULL {
      EvictionFreesOneSlot(s, i);
      EvictSpares(s, i, i);
    }
  }

  lemma SetupEndpointTears(s: Sys, i: int, e: Env)
    requires Base(s) && Related(s) && i in s.live && Asking(s, i) && s.st[i].neighbour == NULL
    requires Stale(s, SetupEndpoint(s, i, e).victim)
    ensures Shape(SetupEndpoint(s, i, e).s) && !Related(SetupEndpoint(s, i, e).s)
  {
    SetupEndpointBase(s, i, e);
    var fd := e.dialing.fd;
    var o := OpenFd(s, fd);
    OpenRelated(s, fd);
    SeatKeepsAsker(o, i, fd);
    var w := StaleSeatTears(o, fd, i, Endpoint, Connecting, INOUT);
    var seat := Seat(o, fd, i, Endpoint, Connecting, INOUT);
    JoinStaysTorn(seat.s, w, i, seat.slot);
    TornUnrelated(SetupEndpoint(s, i, e).s, w);
  }

  lemma ReadRelated(s: Sys, i: int)
    requires Good(s) && i in s.live && s.st[i].role == Client && s.st[i].level in {Ver, Auth, Req} && !s.st[i].abandoned
    ensures Base(Put(s, i, Read(s.st[i]))) && Related(Put(s, i, Read(s.st[i])))
  {
    assert RelatedAt(s, i);
    PutBase(s, i, Read(s.st[i]));
    PutRelated(s, i, Read(s.st[i]));
  }

  lemma HandleSocksTears(s: Sys, i: int, e: Env)
    requires Good(s) && i in s.live && s.st[i].role == Client && !s.st[i].abandoned
    requires Stale(s, HandleSocks(s, i, e).victim)
    ensures Shape(HandleSocks(s, i, e).s) && !Related(HandleSocks(s, i, e).s)
  {
    OnlyDiallingEvicts(s, i, e);
    StillAsking(s, i, HandleSocks(s, i, e).victim);
    SetupEndpointTears(Put(s, i, Read(s.st[i])), i, e);
  }

  lemma StillAsking(s: Sys, i: int, v: int)
    requires Good(s) && i in s.live && Asking(s, i)
    ensures var t := Put(s, i, Read(s.st[i]));
      && Base(t) && Related(t) && i in t.live && Asking(t, i) && t.st[i].neighbour == NULL
      && (Stale(s, v) <==> Stale(t, v))
  {
    assert RelatedAt(s, i);
    ReadRelated(s, i);
    SameStale(s, Put(s, i, Read(s.st[i])), v);
  }

  lemma DialsInRequest(level: Level, queue: seq<byte>, chunk: seq<byte>)
    requires Receive(level, queue, chunk).Dial?
    ensures level == Req
  {
  }

  lemma RespondEvicts(s: Sys, i: int, reaction: Reaction, e: Env)
    requires Sound(s) && i in s.live && Respond(s, i, reaction, e).victim != NULL
    ensures reaction.Dial? && (reaction.request.Host? ==> e.resolved) && Respond(s, i, reaction, e) == SetupEndpoint(s, i, e)
  {
  }

  /** Of all turns of a client only one that completes its request evicts anybody. */
  lemma OnlyDiallingEvicts(s: Sys, i: int, e: Env)
    requires Sound(s) && i in s.live && HandleSocks(s, i, e).victim != NULL
    ensures s.st[i].level == Req && s.st[i].revents.rd && IsSlot(i)
    ensures Sound(Put(s, i, Read(s.st[i]))) && HandleSocks(s, i, e) == SetupEndpoint(Put(s, i, Read(s.st[i])), i, e)
    ensures var reaction := Receive(s.st[i].level, s.st[i].queue, Chunk(s.st[i]));
      reaction.Dial? && (reaction.request.Host? ==> e.resolved)
  {
    var me := s.st[i];
    var reaction := Receive(me.level, me.queue, Chunk(me));
    RespondEvicts(Put(s, i, Read(me)), i, reaction, e);
    DialsInRequest(me.level, me.queue, Chunk(me));
  }

  lemma ReactTears(s: Sys, i: int, e: Env)
    requires Good(s) && i in s.live && Stale(s, React(s, i, e).victim)
    ensures Shape(React(s, i, e).s) && !Related(React(s, i, e).s)
  {
    if s.st[i].role == Listener {
      HandleNewStreamTears(s, i, e);
    } else {
      HandleSocksTears(s, i, e);
    }
  }

  lemma ReactRelated(s: Sys, i: int, e: Env)
    requires Good(s) && i in s.live
    ensures Shape(React(s, i, e).s) && (!Stale(s, React(s, i, e).victim) ==> Related(React(s, i, e).s) && PairsSafe(React(s, i, e).s))
  {
    if !s.st[i].abandoned {
      AbandonRelated(s, i);
      HandleEventsRelated(s, i, e);
    }
  }

  lemma ArriveGood(s: Sys, arrivals: seq<Arrival>, v: int)
    requires Good(s)
    ensures Good(Arrive(s, arrivals)) && Arrive(s, arrivals).live == s.live && (Stale(s, v) <==> Stale(Arrive(s, arrivals), v))
  {
    ArriveSound(s, arrivals);
    ArriveRelated(s, arrivals);
    SoftBase(s, Arrive(s, arrivals), {});
    SameStale(s, Arrive(s, arrivals), v);
  }

  /**
   * One turn of the event loop, with any arrivals and any answers of the kernel, keeps the relation
   * graph, the hand-off and the account of forwarded bytes exactly when it does not evict a stale
   * stream.
   */
  lemma VisitGood(s: Sys, i: int, e: Env)
    requires Good(s) && i in s.live
    ensures Base(Visit(s, i, e).s)
    ensures Good(Visit(s, i, e).s) <==> !Stale(s, Visit(s, i, e).victim)
  {
    var r := Visit(s, i, e);
    VisitBase(s, i, e);
    ArriveGood(s, e.arrivals, r.victim);
    var a := Arrive(s, e.arrivals);
    ReactRelated(a, i, e);
    if Stale(a, r.victim) {
      ReactTears(a, i, e);
    }
  }
}
