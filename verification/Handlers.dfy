/**
 * One turn of the event loop on one stream: the handlers of src/proxy.c and the data forwarding of
 * src/util.c, as functions on the state of the proxy.  Everything the outside world decides during
 * the turn comes in one Env; answers the kernel cannot give are read as failures.
 */
module Handlers {
  import opened Bytes
  import opened PollEvents
  import opened LiveLists
  import opened Socks
  import opened Streams

  /** What connect_async comes to: no socket, a socket closed again, or a pending connection. */
  datatype Dialing = NoSocket | Refused(fd: int) | Pending(fd: int)

  datatype Arrival = Arrival(slot: int, bytes: seq<byte>)

  /**
   * The outside world during one turn: bytes that reach any sockets before it; the answers of
   * accept, socket_set_nonblocking, the resolver and connect_async; the free space in the output
   * buffer a send is about to use (not positive when it cannot be told); and how many bytes send takes
   * (negative for an error).
   */
  datatype Env = Env(
    arrivals: seq<Arrival>, accepted: int, nonblocking: bool, resolved: bool,
    dialing: Dialing, room: int, taken: int)

  /** A turn's result: the new state, false for a severe error, and the slot evicted if any. */
  datatype Outcome = Outcome(s: Sys, ok: bool, victim: int)

  // ---------------------------------------------------------------------------------------------
  // Sockets
  // ---------------------------------------------------------------------------------------------

  /** The kernel hands out descriptors that are not open. */
  predicate Fresh(s: Sys, fd: int) {
    fd >= 0 && fd !in s.os.fds.open
  }

  function OpenFd(s: Sys, fd: int): Sys {
    s.(os := s.os.(fds := s.os.fds.Open(fd)))
  }

  function CloseFd(s: Sys, fd: int): Sys {
    s.(os := s.os.(fds := s.os.fds.Close(fd)))
  }

  /** How many of `offered` bytes send takes, or a negative number. */
  function Accepted(e: Env, offered: nat): (n: int)
    ensures n <= offered
  {
    if e.taken < 0 then -1 else Min(e.taken, offered)
  }

  /** Bytes reach a live stream's socket. */
  function Receipt(s: Sys, a: Arrival): Sys
    requires Shape(s)
  {
    if a.slot in s.live then
      var x := s.st[a.slot];
      s.(st := s.st[a.slot := x.(sock := x.sock.(unread := x.sock.unread + a.bytes, arrived := x.sock.arrived + a.bytes))])
    else s
  }

  function Arrive(s: Sys, arrivals: seq<Arrival>): (r: Sys)
    requires Shape(s)
    ensures Shape(r)
    decreases |arrivals|
  {
    if arrivals == [] then s else Arrive(Receipt(s, arrivals[0]), arrivals[1..])
  }

  // ---------------------------------------------------------------------------------------------
  // Forwarding
  // ---------------------------------------------------------------------------------------------

  /**
   * socket_forward_data: as much as is available, fits the buffer and has room is peeked and offered
   * to send; what send took is then discarded at the source.
   */
  function SocketForward(src: Sock, dst: Sock, e: Env): Option<(Sock, Sock)> {
    var n := Min(Min(FORWARD_CHUNK, |src.unread|), e.room);
    if n <= 0 || Accepted(e, n) < 0 then None
    else
      var m := Accepted(e, n);
      Some((src.(unread := src.unread[m..]), dst.(sent := dst.sent + src.unread[..m], passed := dst.passed + src.unread[..m])))
  }

  /** handle_forward_data on a forwarding stream and its neighbour. */
  function ForwardData(me: Stream, nb: Stream, e: Env): Option<(Stream, Stream)> {
    if me.revents.wr then
      match SocketForward(nb.sock, me.sock, e)
      case None => None
      case Some((src, dst)) =>
        Some((me.(events := me.events.(wr := false), sock := dst), nb.(events := nb.events.(rd := true), sock := src)))
    else if me.revents.rd then
      Some((me.(events := me.events.(rd := false)), nb.(events := nb.events.(wr := true))))
    else
      Some((me, nb))
  }

  /** A socket on which a piece of the queue was sent. */
  function Uttered(sock: Sock, piece: seq<byte>): Sock {
    sock.(sent := sock.sent + piece, said := sock.said + piece)
  }

  /** queue_shift on a client's pending reply, and the next events once nothing is left of it. */
  function DrainQueue(me: Stream, e: Env): Option<Stream> {
    var m := Accepted(e, |me.queue|);
    if m < 0 then None
    else
      var x := me.(queue := me.queue[m..], sock := Uttered(me.sock, me.queue[..m]));
      Some(if x.queue != [] then x else x.(events := if x.level == Pass then NONE else IN))
  }

  // ---------------------------------------------------------------------------------------------
  // New streams
  // ---------------------------------------------------------------------------------------------

  function Admit(s: Sys, fd: int, role: Role, level: Level, events: Events): Sys
    requires Shape(s) && FreeSlot(s) != NULL
  {
    var k := FreeSlot(s);
    var t := Insert(s, fd);
    t.(st := t.st[k := t.st[k].(role := role, level := level, events := events)])
  }

  datatype Seating = Seating(s: Sys, slot: int, victim: int)

  /** insert_stream, with force_cleanup in between when the pool is full. */
  function Seat(s: Sys, fd: int, excl: int, role: Role, level: Level, events: Events): (r: Seating)
    requires Sound(s)
    ensures |r.s.st| == POOL_SIZE && IsSlot(r.slot) && r.s.live != [] && r.s.live[0] == r.slot
  {
    if FreeSlot(s) != NULL then
      Seating(Admit(s, fd, role, level, events), FreeSlot(s), NULL)
    else
      EvictionFreesOneSlot(s, excl);
      Seating(Admit(Evict(s, excl), fd, role, level, events), FreeSlot(Evict(s, excl)), Victim(s, excl))
  }

  /** handle_new_stream and accept_new_stream. */
  function HandleNewStream(s: Sys, i: int, e: Env): Outcome
    requires Sound(s) && i in s.live
  {
    if !s.st[i].revents.rd then Outcome(s, true, NULL)
    else if !Fresh(s, e.accepted) then Outcome(s, false, NULL)
    else if !e.nonblocking then Outcome(CloseFd(OpenFd(s, e.accepted), e.accepted), false, NULL)
    else
      var seat := Seat(OpenFd(s, e.accepted), e.accepted, NULL, Client, Ver, IN);
      Outcome(seat.s, true, seat.victim)
  }

  /** setup_endpoint_stream and the reply that follows its success. */
  function SetupEndpoint(s: Sys, i: int, e: Env): Outcome
    requires Sound(s) && i in s.live
  {
    match e.dialing
    case NoSocket => Outcome(s, false, NULL)
    case Refused(fd) =>
      if !Fresh(s, fd) then Outcome(s, false, NULL)
      else Outcome(Abandon(CloseFd(OpenFd(s, fd), fd), i), true, NULL)
    case Pending(fd) =>
      if !Fresh(s, fd) then Outcome(s, false, NULL)
      else
        var seat := Seat(OpenFd(s, fd), fd, i, Endpoint, Connecting, INOUT);
        Outcome(Join(seat.s, i, seat.slot), true, seat.victim)
  }

  /** The client and its endpoint point at each other, and the grant is queued. */
  function Join(s: Sys, i: int, k: int): Sys
    requires |s.st| == POOL_SIZE && IsSlot(i) && IsSlot(k)
  {
    var me := s.st[i];
    s.(st := s.st[k := s.st[k].(neighbour := i)]
                 [i := Answer(me, Pass, GRANT).(neighbour := k)])
  }

  // ---------------------------------------------------------------------------------------------
  // Events
  // ---------------------------------------------------------------------------------------------

  function Put(s: Sys, i: int, x: Stream): Sys
    requires |s.st| == POOL_SIZE && IsSlot(i)
  {
    s.(st := s.st[i := x])
  }

  /** What one recv takes from the client's socket. */
  function Chunk(me: Stream): seq<byte> {
    me.sock.unread[..Min(CAPACITY, |me.sock.unread|)]
  }

  /** The client after its chunk was received and, if usable, pushed on the queue. */
  function Read(me: Stream): Stream {
    var chunk := Chunk(me);
    me.(queue := if |chunk| >= 2 && |me.queue| + |chunk| <= CAPACITY then me.queue + chunk else me.queue,
        sock := me.sock.(unread := me.sock.unread[|chunk|..], heard := me.sock.heard + chunk))
  }

  /** The client after a reply took the place of what it sent. */
  function Answer(me: Stream, level: Level, bytes: seq<byte>): Stream {
    me.(level := level, queue := bytes, events := OUT, sock := me.sock.(heard := []))
  }

  /** handle_stream_socks; a failure other than a severe one abandons the client. */
  function HandleSocks(s: Sys, i: int, e: Env): Outcome
    requires Sound(s) && i in s.live
  {
    var me := s.st[i];
    if !me.revents.rd then Outcome(Abandon(s, i), true, NULL)
    else Respond(Put(s, i, Read(me)), i, Receive(me.level, me.queue, Chunk(me)), e)
  }

  function Respond(s: Sys, i: int, reaction: Reaction, e: Env): Outcome
    requires Sound(s) && i in s.live
  {
    match reaction
    case Hang => Outcome(Abandon(s, i), true, NULL)
    case Wait(_) => Outcome(s, true, NULL)
    case Reply(level, bytes) => Outcome(Put(s, i, Answer(s.st[i], level, bytes)), true, NULL)
    case Dial(request) =>
      if request.Host? && !e.resolved then Outcome(Abandon(s, i), true, NULL)
      else SetupEndpoint(s, i, e)
  }

  /** At promotion the account of what is sent starts afresh. */
  function Restart(sock: Sock): Sock {
    sock.(sent := [], passed := [], said := [], arrived := sock.unread)
  }

  /** A connected endpoint and its client start forwarding. */
  function Promote(s: Sys, i: int): Sys
    requires Shape(s) && IsSlot(i) && s.st[i].neighbour != NULL
  {
    var j := s.st[i].neighbour;
    var me, nb := s.st[i], s.st[j];
    s.(st := s.st[i := me.(level := Forwarding, events := IN, sock := Restart(me.sock))]
                 [j := nb.(level := Forwarding, events := IN, sock := Restart(nb.sock), drained := nb.queue == [])])
  }

  predicate Forwards(s: Sys, i: int, e: Env)
    requires Shape(s) && IsSlot(i)
  {
    && s.st[i].level == Forwarding && s.st[i].neighbour != NULL
    && ForwardData(s.st[i], s.st[s.st[i].neighbour], e).Some?
  }

  predicate Drains(me: Stream) {
    me.role == Client && me.queue != [] && me.revents.wr
  }

  /** handle_stream_events. */
  function HandleEvents(s: Sys, i: int, e: Env): Outcome
    requires Sound(s) && i in s.live
  {
    var me := s.st[i];
    var j := me.neighbour;
    if Forwards(s, i, e) then
      var pair := ForwardData(me, s.st[j], e).value;
      Outcome(Put(Put(s, i, pair.0), j, pair.1), true, NULL)
    else if Drains(me) then
      match DrainQueue(me, e)
      case None => Outcome(Abandon(s, i), true, NULL)
      case Some(x) => Outcome(Put(s, i, x), true, NULL)
    else ByRole(s, i, e)
  }

  /** The rest of handle_stream_events, where the role decides. */
  function ByRole(s: Sys, i: int, e: Env): Outcome
    requires Sound(s) && i in s.live
  {
    var me := s.st[i];
    match me.role
    case Listener => HandleNewStream(s, i, e)
    case Client => HandleSocks(s, i, e)
    case Endpoint =>
      if me.level == Connecting && me.neighbour != NULL && (me.revents.rd || me.revents.wr) then Outcome(Promote(s, i), true, NULL)
      else Outcome(Abandon(s, i), true, NULL)
    case Invalid => Outcome(Abandon(s, i), true, NULL)
  }

  /** One step of the loop over the stream list (src/util.c:1182-1198), arrivals first. */
  function Visit(s: Sys, i: int, e: Env): Outcome
    requires Sound(s) && i in s.live
  {
    ArriveSound(s, e.arrivals);
    React(Arrive(s, e.arrivals), i, e)
  }

  function React(s: Sys, i: int, e: Env): Outcome
    requires Sound(s) && i in s.live
  {
    var me := s.st[i];
    if me.abandoned || !me.revents.Any() then Outcome(s, true, NULL)
    else if me.revents.err || me.revents.hup then Outcome(Abandon(s, i), true, NULL)
    else HandleEvents(s, i, e)
  }

  lemma ReceiptSound(s: Sys, a: Arrival)
    requires Shape(s)
    ensures var r := Receipt(s, a);
      && Shape(r) && r.live == s.live && r.os == s.os && r.evictions == s.evictions
      && r.stamp == s.stamp && r.clock == s.clock
      && (Roles(s) ==> Roles(r))
      && forall i :: IsSlot(i) ==> r.st[i] == s.st[i].(sock := r.st[i].sock)
  {
  }

  /** Arrivals touch nothing but the bytes waiting at the sockets. */
  lemma {:induction false} ArriveSound(s: Sys, arrivals: seq<Arrival>)
    requires Shape(s)
    ensures var r := Arrive(s, arrivals);
      && Shape(r) && r.live == s.live && r.os == s.os && r.evictions == s.evictions
      && r.stamp == s.stamp && r.clock == s.clock
      && (Roles(s) ==> Roles(r))
      && forall i :: IsSlot(i) ==> r.st[i] == s.st[i].(sock := r.st[i].sock)
    decreases |arrivals|
  {
    if arrivals != [] {
      ReceiptSound(s, arrivals[0]);
      ArriveSound(Receipt(s, arrivals[0]), arrivals[1..]);
    }
  }
}
