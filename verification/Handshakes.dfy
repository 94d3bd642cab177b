/**
 * The handshake over whole walks: the one queue of a client is never mixed.  Between turns it holds
 * either a reply or client bytes, while it holds client bytes nothing is sent from it, and what the
 * client has been sent before promotion is always a prefix of one of two scripts.  This holds as long
 * as no forwarding turn strays to a client in the handshake, even when an eviction restarts the walk and
 * clients get another turn with events they were given before; only then can a reply still queued be
 * read together with what follows it, and never is it taken for a request.
 */
module Handshakes {
  import opened Bytes
  import opened PollEvents
  import opened LiveLists
  import opened Socks
  import opened Streams
  import opened Handlers
  import opened BaseInvariant
  import opened Relations
  import opened Steps
  import opened Walks

  /** A reply, and nothing else, is in the queue and on its way. */
  predicate Replying(x: Stream, script: seq<byte>) {
    x.queue != [] && x.events == OUT && x.sock.sent + x.queue == script && x.sock.heard == []
  }

  /** Client bytes, and nothing else, are in the queue; everything said so far has been sent. */
  predicate Listening(x: Stream, script: seq<byte>) {
    x.events == IN && x.sock.sent == script && x.queue == x.sock.heard
  }

  /** Everything was said and the endpoint is awaited. */
  predicate Waiting(x: Stream, script: seq<byte>) {
    x.queue == [] && x.events == NONE && x.sock.sent == script
  }

  predicate RequestStage(x: Stream, greeting: seq<byte>) {
    Replying(x, greeting) || (Listening(x, greeting) && ParseRequest(x.queue) == More)
  }

  predicate GrantStage(x: Stream, greeting: seq<byte>) {
    Replying(x, greeting + GRANT) || Waiting(x, greeting + GRANT)
  }

  /** Where a client is in the dialogue, told from its level, events, queue and what was sent. */
  predicate InScript(x: Stream) {
    match x.level
    case Ver => Listening(x, []) && x.queue == []
    case Auth => Replying(x, USER_AUTH) || (Listening(x, USER_AUTH) && x.queue == [])
    case Req => RequestStage(x, NO_AUTH) || RequestStage(x, USER_AUTH + NO_AUTH)
    case Pass => GrantStage(x, NO_AUTH) || GrantStage(x, USER_AUTH + NO_AUTH)
    case _ => false
  }

  predicate Shaking(x: Stream) {
    x.role == Client && x.level != Forwarding && !x.abandoned
  }

  /** The last reply is queued and none of it has been sent. */
  predicate Unsaid(x: Stream) {
    x.events == OUT &&
    match x.level
    case Auth => x.queue == USER_AUTH && x.sock.sent == []
    case Req => x.queue == NO_AUTH && (x.sock.sent == [] || x.sock.sent == USER_AUTH)
    case Pass => x.queue == GRANT
    case _ => false
  }

  /** Another turn with these events does no harm, even if the client had one with them already. */
  predicate Timely(x: Stream) {
    && !(x.revents.rd && x.revents.wr)
    && (x.revents.rd ==> x.events == IN || Unsaid(x))
    && (x.revents.wr ==> x.events == OUT || x.queue == [])
  }

  predicate InStep(x: Stream) {
    InScript(x) && Timely(x)
  }

  predicate ShakenAt(x: Stream) {
    Shaking(x) ==> InStep(x)
  }

  /** Every client in the handshake follows the script. */
  ghost predicate Shaken(s: Sys)
    requires Shape(s)
  {
    forall i :: i in s.live ==> ShakenAt(s.st[i])
  }

  /** The events about to be handled were asked for. */
  predicate Requested(x: Stream) {
    (x.revents.rd ==> x.events.rd) && (x.revents.wr ==> x.events.wr)
  }

  /** The events of these streams were asked for, as long as they are clients in the handshake. */
  ghost predicate Heeded(s: Sys, pending: seq<int>)
    requires Shape(s)
  {
    forall i :: i in s.live && i in pending && Shaking(s.st[i]) ==> Requested(s.st[i])
  }

  /** Events that were asked for are timely. */
  lemma RequestedInStep(x: Stream)
    requires InScript(x) && Requested(x)
    ensures InStep(x)
  {
  }

  /** What a client has been sent before promotion, always: a prefix of one of the two scripts. */
  lemma SentIsPrefix(x: Stream)
    requires Shaking(x) && InScript(x)
    ensures x.sock.sent <= NO_AUTH + GRANT || x.sock.sent <= USER_AUTH + NO_AUTH + GRANT
    ensures x.sock.sent != [] && x.queue == [] && x.events == NONE ==>
              x.sock.sent == NO_AUTH + GRANT || x.sock.sent == USER_AUTH + NO_AUTH + GRANT
  {
    var all := x.sock.sent + x.queue;
    assert x.sock.sent <= all;
    assert NO_AUTH <= NO_AUTH + GRANT && USER_AUTH <= USER_AUTH + NO_AUTH + GRANT;
    assert USER_AUTH + NO_AUTH <= USER_AUTH + NO_AUTH + GRANT;
  }

  // ---------------------------------------------------------------------------------------------
  // One client
  // ---------------------------------------------------------------------------------------------

  /** After a part of a reply was taken, the rest is on its way still, or all of it has been sent. */
  lemma DrainReply(me: Stream, e: Env, script: seq<byte>)
    requires Replying(me, script) && DrainQueue(me, e).Some?
    ensures var x := DrainQueue(me, e).value;
      && x.level == me.level
      && if x.queue != [] then Replying(x, script)
         else x.sock.sent == script && x.sock.heard == [] && x.events == (if me.level == Pass then NONE else IN)
  {
    var m := Accepted(e, |me.queue|);
    var x := DrainQueue(me, e).value;
    assert me.queue == me.queue[..m] + me.queue[m..];
    Associate(me.sock.sent, me.queue[..m], me.queue[m..]);
    assert x.sock.sent + x.queue == script;
    if x.queue == [] {
      assert x.sock.sent + [] == x.sock.sent;
    }
  }

  /** A client about to send is replying. */
  lemma SendsReply(me: Stream) returns (script: seq<byte>)
    requires InStep(me) && Drains(me)
    ensures Replying(me, script)
    ensures match me.level
            case Auth => script == USER_AUTH
            case Req => script == NO_AUTH || script == USER_AUTH + NO_AUTH
            case Pass => script == NO_AUTH + GRANT || script == USER_AUTH + NO_AUTH + GRANT
            case _ => false
  {
    script := if Replying(me, USER_AUTH) && me.level == Auth then USER_AUTH
              else if me.level == Req then (if Replying(me, NO_AUTH) then NO_AUTH else USER_AUTH + NO_AUTH)
              else (if Replying(me, NO_AUTH + GRANT) then NO_AUTH + GRANT else USER_AUTH + NO_AUTH + GRANT);
  }

  /** Whatever part of a reply send takes, the client stays in the script. */
  lemma DrainInScript(me: Stream, e: Env)
    requires Shaking(me) && InStep(me) && Drains(me) && DrainQueue(me, e).Some?
    ensures InStep(DrainQueue(me, e).value) && DrainQueue(me, e).value.level == me.level
  {
    var script := SendsReply(me);
    DrainReply(me, e, script);
    assert ParseRequest([]) == More;
  }

  /** A client that reads on request is listening: what is in its queue is what was heard, and no reply. */
  lemma ReadListens(me: Stream)
    requires Shaking(me) && InScript(me) && me.revents.rd && Requested(me)
    ensures me.level in {Ver, Auth, Req} && me.queue == me.sock.heard
    ensures Read(me).queue == me.queue + Chunk(me) ==> Read(me).queue == Read(me).sock.heard
  {
  }

  /** A reply read together with what follows it is no request. */
  lemma ReplyIsNoRequest(chunk: seq<byte>)
    requires |chunk| >= 2
    ensures Receive(Req, NO_AUTH, chunk) == Hang && Receive(Pass, GRANT, chunk) == Hang
  {
    var q := NO_AUTH + chunk;
    assert q[0] == 5 && q[1] == 0;
  }

  /** A usable chunk takes a client to the next line of the script. */
  lemma ReactionInScript(me: Stream)
    requires Shaking(me) && InStep(me) && me.revents.rd
    ensures var x := Read(me);
      match Receive(me.level, me.queue, Chunk(me))
      case Hang => true
      case Wait(_) => InStep(x)
      case Reply(level, bytes) => InStep(Answer(x, level, bytes))
      case Dial(_) => InStep(Answer(x, Pass, GRANT))
  {
    if me.events == IN {
      ListeningReacts(me);
    } else {
      UnsaidReacts(me);
    }
  }

  lemma ListeningReacts(me: Stream)
    requires Shaking(me) && InScript(me) && me.events == IN && me.revents.rd && !me.revents.wr
    ensures var x := Read(me);
      match Receive(me.level, me.queue, Chunk(me))
      case Hang => true
      case Wait(_) => InStep(x)
      case Reply(level, bytes) => InStep(Answer(x, level, bytes))
      case Dial(_) => InStep(Answer(x, Pass, GRANT))
  {
    ReadListens(me);
    assert [] + NO_AUTH == NO_AUTH && [] + USER_AUTH == USER_AUTH;
    assert USER_AUTH + NO_AUTH + GRANT == (USER_AUTH + NO_AUTH) + GRANT;
  }

  /** With its reply still queued a client is hung up on, or moves from Auth to Req unasked. */
  lemma UnsaidReacts(me: Stream)
    requires Shaking(me) && Unsaid(me) && me.revents.rd && !me.revents.wr
    ensures var x := Read(me);
      match Receive(me.level, me.queue, Chunk(me))
      case Hang => true
      case Reply(level, bytes) => InStep(Answer(x, level, bytes))
      case _ => false
  {
    assert [] + NO_AUTH == NO_AUTH;
    if |Chunk(me)| >= 2 {
      ReplyIsNoRequest(Chunk(me));
    }
  }

  // ---------------------------------------------------------------------------------------------
  // The other streams
  // ---------------------------------------------------------------------------------------------

  /** A client that came in this turn. */
  predicate NewClient(x: Stream) {
    x == Blank(x.fd).(role := Client, level := Ver, events := IN)
  }

  /** Nothing the script depends on has changed. */
  predicate SameScript(x: Stream, y: Stream) {
    y == x.(sock := y.sock) && y.sock.sent == x.sock.sent && y.sock.heard == x.sock.heard
  }

  lemma SameScriptInStep(x: Stream, y: Stream)
    requires SameScript(x, y)
    ensures InStep(x) <==> InStep(y)
  {
  }

  /** Handshakes other than that of `i` are as they were, or just began. */
  ghost predicate OthersKept(s: Sys, t: Sys, i: int)
    requires Shape(s) && Shape(t)
  {
    forall x :: x in t.live && x != i && Shaking(t.st[x]) ==>
      (x in s.live && SameScript(s.st[x], t.st[x])) || NewClient(t.st[x])
  }

  lemma AbandonOthers(s: Sys, i: int)
    requires Shape(s) && IsSlot(i)
    ensures Shape(Abandon(s, i)) && OthersKept(s, Abandon(s, i), i)
  {
    AbandonShape(s, i);
  }

  lemma EvictOthers(s: Sys, excl: int, x: int)
    requires Shape(s) && x in Evict(s, excl).live
    ensures x in s.live && (Evict(s, excl).st[x] == s.st[x] || Evict(s, excl).st[x].abandoned)
  {
    EvictShape(s, excl);
    var v := Victim(s, excl);
    if v != NULL {
      AbandonLeaves(s, v, x);
    }
  }

  lemma AbandonLeaves(s: Sys, v: int, x: int)
    requires |s.st| == POOL_SIZE && Shape(s) && IsSlot(v) && IsSlot(x)
    ensures |Abandon(s, v).st| == POOL_SIZE && (Abandon(s, v).st[x] == s.st[x] || Abandon(s, v).st[x].abandoned)
  {
  }

  lemma SeatOthers(s: Sys, fd: int, excl: int, role: Role, level: Level, events: Events)
    requires Sound(s)
    ensures var r := Seat(s, fd, excl, role, level, events);
      && r.s.st[r.slot] == Blank(fd).(role := role, level := level, events := events)
      && forall x :: x in r.s.live && x != r.slot ==> x in s.live && (r.s.st[x] == s.st[x] || r.s.st[x].abandoned)
  {
    if FreeSlot(s) == NULL {
      EvictionFreesOneSlot(s, excl);
      forall x | x in Evict(s, excl).live
        ensures x in s.live && (Evict(s, excl).st[x] == s.st[x] || Evict(s, excl).st[x].abandoned)
      {
        EvictOthers(s, excl, x);
      }
    }
  }

  lemma HandleNewStreamOthers(s: Sys, i: int, e: Env)
    requires Base(s) && i in s.live
    ensures Shape(HandleNewStream(s, i, e).s) && OthersKept(s, HandleNewStream(s, i, e).s, NULL)
  {
    HandleNewStreamBase(s, i, e);
    if s.st[i].revents.rd && Fresh(s, e.accepted) && e.nonblocking {
      AcceptedOthers(s, e.accepted);
    } else {
      UnchangedOthers(s, HandleNewStream(s, i, e).s);
    }
  }

  lemma UnchangedOthers(s: Sys, t: Sys)
    requires Shape(s) && Shape(t) && t.live == s.live && t.st == s.st
    ensures OthersKept(s, t, NULL)
  {
  }

  lemma AcceptedOthers(s: Sys, fd: int)
    requires Base(s) && Fresh(s, fd)
    ensures Sound(OpenFd(s, fd))
    ensures var t := Seat(OpenFd(s, fd), fd, NULL, Client, Ver, IN).s; Shape(t) ==> OthersKept(s, t, NULL)
  {
    OpenBase(s, fd);
    SeatOthers(OpenFd(s, fd), fd, NULL, Client, Ver, IN);
    var r := Seat(OpenFd(s, fd), fd, NULL, Client, Ver, IN);
    if Shape(r.s) {
      NewcomerOthers(s, r.s, r.slot);
    }
  }

  lemma NewcomerOthers(s: Sys, t: Sys, k: int)
    requires Shape(s) && Shape(t) && IsSlot(k) && NewClient(t.st[k])
    requires forall x :: x in t.live && x != k ==> x in s.live && (t.st[x] == s.st[x] || t.st[x].abandoned)
    ensures OthersKept(s, t, NULL)
  {
  }

  /** The client as it was, with its endpoint in slot `k`; or it was abandoned on the way. */
  predicate Granted(x: Stream, y: Stream, k: int) {
    y == Answer(x, Pass, GRANT).(neighbour := k) || y.abandoned
  }

  lemma JoinOthers(s: Sys, i: int, u: Sys, k: int)
    requires Shape(s) && IsSlot(i) && IsSlot(k) && i != k && |u.st| == POOL_SIZE && Shape(Join(u, i, k))
    requires (u.st[i] == s.st[i] || u.st[i].abandoned) && u.st[k].role == Endpoint
    requires forall x :: x in u.live && x != k ==> x in s.live && (u.st[x] == s.st[x] || u.st[x].abandoned)
    ensures var t := Join(u, i, k); OthersKept(s, t, i) && Granted(s.st[i], t.st[i], k)
  {
  }

  lemma DialledOthers(s: Sys, i: int, fd: int)
    requires Base(s) && i in s.live && Fresh(s, fd)
    ensures var seat := Seat(OpenFd(s, fd), fd, i, Endpoint, Connecting, INOUT);
      var t := Join(seat.s, i, seat.slot);
      Shape(t) && OthersKept(s, t, i) && Granted(s.st[i], t.st[i], seat.slot)
  {
    DialledBase(s, i, fd);
    var o := OpenFd(s, fd);
    OpenBase(s, fd);
    var seat := Seat(o, fd, i, Endpoint, Connecting, INOUT);
    SeatOthers(o, fd, i, Endpoint, Connecting, INOUT);
    SeatSpares(o, fd, i, Endpoint, Connecting, INOUT);
    JoinOthers(o, i, seat.s, seat.slot);
  }

  // ---------------------------------------------------------------------------------------------
  // Turns
  // ---------------------------------------------------------------------------------------------

  /**
   * A forwarding turn of `i` that changes the events of a client still in the handshake: the neighbour
   * that `i` once had is gone, and this client has got its slot.
   */
  predicate StraysNow(s: Sys, i: int, e: Env)
    requires Shape(s) && IsSlot(i)
  {
    var me := s.st[i];
    && !me.abandoned && !me.revents.err && !me.revents.hup && Forwards(s, i, e)
    && me.neighbour in s.live && Shaking(s.st[me.neighbour])
    && if me.revents.wr then !s.st[me.neighbour].events.rd else me.revents.rd && !s.st[me.neighbour].events.wr
  }

  predicate Strays(s: Sys, i: int, e: Env)
    requires Shape(s) && IsSlot(i)
  {
    StraysNow(Arrive(s, e.arrivals), i, e)
  }

  /** After a turn of `i`: other handshakes kept, and `i` still in the script if still shaking. */
  ghost predicate TurnKept(s: Sys, t: Sys, i: int)
    requires Shape(s) && Shape(t) && IsSlot(i)
  {
    OthersKept(s, t, i) && ShakenAt(t.st[i])
  }

  lemma GrantKept(s: Sys, t: Sys, i: int, k: int)
    requires Shape(s) && Shape(t) && IsSlot(i) && OthersKept(s, t, i)
    requires Granted(s.st[i], t.st[i], k) && InStep(Answer(s.st[i], Pass, GRANT))
    ensures TurnKept(s, t, i)
  {
  }

  lemma SetupEndpointShaken(s: Sys, i: int, e: Env)
    requires Base(s) && i in s.live
    requires InStep(Answer(s.st[i], Pass, GRANT)) && SetupEndpoint(s, i, e).ok
    ensures var r := SetupEndpoint(s, i, e); Shape(r.s) && TurnKept(s, r.s, i)
  {
    match e.dialing
    case NoSocket =>
    case Refused(fd) =>
      OpenBase(s, fd);
      AbandonOthers(CloseFd(OpenFd(s, fd), fd), i);
    case Pending(fd) =>
      DialledOthers(s, i, fd);
      var seat := Seat(OpenFd(s, fd), fd, i, Endpoint, Connecting, INOUT);
      GrantKept(s, Join(seat.s, i, seat.slot), i, seat.slot);
  }

  lemma PutOthers(s: Sys, i: int, x: Stream)
    requires Base(s) && i in s.live && Shape(Put(s, i, x))
    ensures OthersKept(s, Put(s, i, x), i)
  {
  }

  /** Reading changes nobody else. */
  lemma OthersAfterRead(s: Sys, i: int, u: Sys)
    requires Base(s) && i in s.live && Shape(Put(s, i, Read(s.st[i]))) && Shape(u)
    requires OthersKept(Put(s, i, Read(s.st[i])), u, i)
    ensures OthersKept(s, u, i)
  {
  }

  lemma AnswerShaken(s: Sys, i: int, level: Level, bytes: seq<byte>)
    requires Base(s) && i in s.live && InStep(Answer(s.st[i], level, bytes))
    ensures var t := Put(s, i, Answer(s.st[i], level, bytes)); Shape(t) && TurnKept(s, t, i)
  {
    PutBase(s, i, Answer(s.st[i], level, bytes));
  }

  lemma RespondShaken(s: Sys, i: int, reaction: Reaction, e: Env)
    requires Base(s) && i in s.live
    requires match reaction
      case Hang => true
      case Wait(_) => InStep(s.st[i])
      case Reply(level, bytes) => InStep(Answer(s.st[i], level, bytes))
      case Dial(_) => InStep(Answer(s.st[i], Pass, GRANT))
    requires Respond(s, i, reaction, e).ok
    ensures var r := Respond(s, i, reaction, e); Shape(r.s) && TurnKept(s, r.s, i)
  {
    match reaction
    case Hang => AbandonOthers(s, i);
    case Wait(_) =>
    case Reply(level, bytes) => AnswerShaken(s, i, level, bytes);
    case Dial(request) =>
      AbandonOthers(s, i);
      if !(request.Host? && !e.resolved) {
        SetupEndpointShaken(s, i, e);
      }
  }

  lemma HandleSocksShaken(s: Sys, i: int, e: Env)
    requires Base(s) && i in s.live && Shaking(s.st[i]) && InStep(s.st[i])
    requires HandleSocks(s, i, e).ok
    ensures var r := HandleSocks(s, i, e); Shape(r.s) && TurnKept(s, r.s, i)
  {
    var me := s.st[i];
    if !me.revents.rd {
      AbandonOthers(s, i);
    } else {
      PutBase(s, i, Read(me));
      ReactionInScript(me);
      var t := Put(s, i, Read(me));
      RespondShaken(t, i, Receive(me.level, me.queue, Chunk(me)), e);
      OthersAfterRead(s, i, HandleSocks(s, i, e).s);
    }
  }

  /** The neighbour keeps its place in the script unless the turn strays. */
  lemma ForwardOthers(s: Sys, i: int, e: Env)
    requires Base(s) && i in s.live && !s.st[i].abandoned && !s.st[i].revents.err && !s.st[i].revents.hup
    requires Forwards(s, i, e) && !StraysNow(s, i, e)
    ensures var r := HandleEvents(s, i, e); Shape(r.s) && TurnKept(s, r.s, i)
  {
    ForwardBase(s, i, e);
  }

  /** A client has no place in the script whose events were changed for forwarding. */
  lemma StraysBreak(s: Sys, i: int, e: Env)
    requires Base(s) && i in s.live && Shaken(s) && StraysNow(s, i, e)
    ensures Shape(React(s, i, e).s) && React(s, i, e).ok && !Shaken(React(s, i, e).s)
  {
    ForwardBase(s, i, e);
    var j := s.st[i].neighbour;
    var t := React(s, i, e).s;
    assert React(s, i, e) == HandleEvents(s, i, e);
    assert ShakenAt(s.st[j]);
    OutOfScript(s.st[j], t.st[j]);
    assert j in t.live && !ShakenAt(t.st[j]);
  }

  lemma OutOfScript(x: Stream, y: Stream)
    requires Shaking(x) && InScript(x) && y == x.(events := y.events, sock := y.sock)
    requires (y.events == x.events.(rd := true) && !x.events.rd) || (y.events == x.events.(wr := true) && !x.events.wr)
    requires y.sock.sent == x.sock.sent && y.sock.heard == x.sock.heard
    ensures Shaking(y) && !InScript(y)
  {
  }

  lemma PromoteOthers(s: Sys, i: int)
    requires Base(s) && i in s.live && s.st[i].neighbour != NULL && s.st[i].role == Endpoint
    ensures Shape(Promote(s, i)) && TurnKept(s, Promote(s, i), i)
  {
    PromoteBase(s, i);
  }

  lemma DrainShaken(s: Sys, i: int, e: Env)
    requires Base(s) && i in s.live && !s.st[i].abandoned && Drains(s.st[i]) && DrainQueue(s.st[i], e).Some?
    requires ShakenAt(s.st[i])
    ensures var t := Put(s, i, DrainQueue(s.st[i], e).value); Shape(t) && TurnKept(s, t, i)
  {
    var x := DrainQueue(s.st[i], e).value;
    PutBase(s, i, x);
    PutOthers(s, i, x);
    if Shaking(s.st[i]) {
      DrainInScript(s.st[i], e);
    }
  }

  lemma HandleEventsShaken(s: Sys, i: int, e: Env)
    requires Base(s) && i in s.live && !s.st[i].abandoned && !s.st[i].revents.err && !s.st[i].revents.hup
    requires ShakenAt(s.st[i]) && !StraysNow(s, i, e)
    requires HandleEvents(s, i, e).ok
    ensures var r := HandleEvents(s, i, e); Shape(r.s) && TurnKept(s, r.s, i)
  {
    var me := s.st[i];
    AbandonOthers(s, i);
    if Forwards(s, i, e) {
      ForwardOthers(s, i, e);
    } else if Drains(me) {
      if DrainQueue(me, e).Some? {
        DrainShaken(s, i, e);
      }
    } else {
      match me.role
      case Listener => ListenerShaken(s, i, e);
      case Client => ClientShaken(s, i, e);
      case Endpoint =>
        if me.neighbour != NULL {
          PromoteOthers(s, i);
        }
      case Invalid =>
    }
  }

  lemma ListenerShaken(s: Sys, i: int, e: Env)
    requires Base(s) && i in s.live && s.st[i].role == Listener && !s.st[i].abandoned
    ensures var r := HandleNewStream(s, i, e); Shape(r.s) && TurnKept(s, r.s, i)
  {
    HandleNewStreamOthers(s, i, e);
    HandleNewStreamStep(s, i, e);
    assert !IsSlot(NULL);
    assert Later(s.st[i], HandleNewStream(s, i, e).s.st[i]);
  }

  lemma ClientShaken(s: Sys, i: int, e: Env)
    requires Base(s) && i in s.live && s.st[i].role == Client && !s.st[i].abandoned
    requires ShakenAt(s.st[i])
    requires HandleSocks(s, i, e).ok
    ensures var r := HandleSocks(s, i, e); Shape(r.s) && TurnKept(s, r.s, i)
  {
    if Shaking(s.st[i]) {
      HandleSocksShaken(s, i, e);
    } else if s.st[i].revents.rd {
      PutBase(s, i, Read(s.st[i]));
      AbandonOthers(Put(s, i, Read(s.st[i])), i);
      OthersAfterRead(s, i, Abandon(Put(s, i, Read(s.st[i])), i));
    } else {
      AbandonOthers(s, i);
    }
  }

  lemma ReactShaken(s: Sys, i: int, e: Env)
    requires Base(s) && i in s.live && ShakenAt(s.st[i]) && React(s, i, e).ok && !StraysNow(s, i, e)
    ensures Shape(React(s, i, e).s) && TurnKept(s, React(s, i, e).s, i)
  {
    AbandonOthers(s, i);
    if !s.st[i].abandoned && s.st[i].revents.Any() && !s.st[i].revents.err && !s.st[i].revents.hup {
      HandleEventsShaken(s, i, e);
    }
  }

  /** Arrivals change neither what was said nor what was heard. */
  lemma ArriveShaken(s: Sys, arrivals: seq<Arrival>, pending: seq<int>)
    requires Base(s) && Shaken(s)
    ensures var a := Arrive(s, arrivals);
      && Base(a) && a.live == s.live && Shaken(a) && (Heeded(s, pending) ==> Heeded(a, pending))
  {
    ArriveSound(s, arrivals);
    ArriveHeard(s, arrivals);
    var a := Arrive(s, arrivals);
    SoftBase(s, a, {});
    forall i | i in a.live
      ensures ShakenAt(a.st[i])
    {
      assert IsSlot(i) && ShakenAt(s.st[i]);
      SameScriptInStep(s.st[i], a.st[i]);
    }
  }

  lemma {:induction false} ArriveHeard(s: Sys, arrivals: seq<Arrival>)
    requires Shape(s)
    ensures var a := Arrive(s, arrivals);
      forall i :: IsSlot(i) ==> a.st[i].sock.sent == s.st[i].sock.sent && a.st[i].sock.heard == s.st[i].sock.heard
    decreases |arrivals|
  {
    if arrivals != [] {
      ArriveHeard(Receipt(s, arrivals[0]), arrivals[1..]);
    }
  }

  lemma KeptShaken(s: Sys, t: Sys, i: int, pending: seq<int>, rest: seq<int>)
    requires Shape(s) && Shape(t) && i in s.live && Shaken(s) && TurnKept(s, t, i)
    requires i !in rest && forall x :: x in rest ==> x in pending
    ensures Shaken(t)
    ensures Heeded(s, pending) ==> Heeded(t, rest)
  {
    forall x | x in t.live
      ensures ShakenAt(t.st[x])
    {
      if x != i && Shaking(t.st[x]) && x in s.live && SameScript(s.st[x], t.st[x]) {
        assert ShakenAt(s.st[x]);
        SameScriptInStep(s.st[x], t.st[x]);
      }
    }
  }

  /**
   * One turn that does not stray keeps every client in the handshake in the script, whether its events
   * were asked for or are old; and it leaves the events of the others alone.
   */
  lemma VisitShaken(s: Sys, i: int, e: Env, pending: seq<int>, rest: seq<int>)
    requires Base(s) && i in s.live && Shaken(s) && Visit(s, i, e).ok && !Strays(s, i, e)
    requires i !in rest && forall x :: x in rest ==> x in pending
    ensures Shape(Visit(s, i, e).s) && Shaken(Visit(s, i, e).s)
    ensures Heeded(s, pending) ==> Heeded(Visit(s, i, e).s, rest)
  {
    var a := Arrive(s, e.arrivals);
    ArriveShaken(s, e.arrivals, pending);
    assert ShakenAt(a.st[i]);
    ReactShaken(a, i, e);
    KeptShaken(a, Visit(s, i, e).s, i, pending, rest);
  }

  /** One turn keeps every client in the handshake in the script exactly when it does not stray. */
  lemma TurnShakenExactlyWhen(s: Sys, i: int, e: Env)
    requires Base(s) && i in s.live && Shaken(s)
    ensures Base(Visit(s, i, e).s)
    ensures Strays(s, i, e) ==> Visit(s, i, e).ok
    ensures Visit(s, i, e).ok ==> (Shaken(Visit(s, i, e).s) <==> !Strays(s, i, e))
  {
    VisitBase(s, i, e);
    if Strays(s, i, e) {
      ArriveShaken(s, e.arrivals, []);
      StraysBreak(Arrive(s, e.arrivals), i, e);
    } else if Visit(s, i, e).ok {
      VisitShaken(s, i, e, [], []);
    }
  }

  /** Where every pair is related nothing strays: the neighbour of a forwarding stream forwards. */
  lemma RelatedNeverStrays(s: Sys, i: int, e: Env)
    requires Good(s) && i in s.live
    ensures !Strays(s, i, e)
  {
    ArriveGood(s, e.arrivals, NULL);
    assert RelatedAt(Arrive(s, e.arrivals), i);
  }

  // ---------------------------------------------------------------------------------------------
  // Whole walks
  // ---------------------------------------------------------------------------------------------

  ghost predicate AllShaken(turns: seq<Turn>) {
    forall t :: t in turns ==> Shape(t.before) && Shaken(t.before)
  }

  /** Some turn strays. */
  ghost predicate Strayed(turns: seq<Turn>) {
    exists t :: t in turns && Shape(t.before) && IsSlot(t.slot) && Strays(t.before, t.slot, t.e)
  }

  /** Every handshake is in its script before every turn of the walk, and after it. */
  ghost predicate ScriptAlong(w: WalkResult) {
    AllShaken(w.turns) && (w.ok ==> Shape(w.s) && Shaken(w.s))
  }

  lemma ScriptMore(w: WalkResult, t: Turn, w': WalkResult)
    requires w.s == w'.s && w.ok == w'.ok && w.turns == [t] + w'.turns
    ensures ScriptAlong(w) <==> Shape(t.before) && Shaken(t.before) && ScriptAlong(w')
    ensures Strayed(w.turns) <==> (Shape(t.before) && IsSlot(t.slot) && Strays(t.before, t.slot, t.e)) || Strayed(w'.turns)
  {
    assert forall u :: u in w.turns <==> u == t || u in w'.turns;
  }

  lemma ScriptOnly(w: WalkResult, t: Turn)
    requires !w.ok && w.turns == [t]
    ensures ScriptAlong(w) <==> Shape(t.before) && Shaken(t.before)
    ensures Strayed(w.turns) <==> Shape(t.before) && IsSlot(t.slot) && Strays(t.before, t.slot, t.e)
  {
    assert forall u :: u in w.turns <==> u == t;
  }

  lemma TurnThenScript(s: Sys, cur: int, visits: seq<Env>)
    requires Base(s) && cur in s.live && Shaken(s)
    ensures var r := Visit(s, cur, Next(visits));
      var next := NextOf(s.live, cur);
      var w := Walk(s, cur, visits);
      && Base(r.s) && (next == NULL || next in r.s.live)
      && if !r.ok then ScriptAlong(w) && !Strayed(w.turns)
         else
           var w' := Walk(r.s, next, Rest(visits));
           && (ScriptAlong(w) <==> ScriptAlong(w')) && (Shaken(r.s) <==> !Strays(s, cur, Next(visits)))
           && (Strayed(w.turns) <==> Strays(s, cur, Next(visits)) || Strayed(w'.turns))
  {
    var r := Visit(s, cur, Next(visits));
    var t := Turn(cur, s, Next(visits));
    TurnShakenExactlyWhen(s, cur, Next(visits));
    WalkTurn(s, cur, visits);
    if r.ok {
      ScriptMore(Walk(s, cur, visits), t, Walk(r.s, NextOf(s.live, cur), Rest(visits)));
    } else {
      ScriptOnly(Walk(s, cur, visits), t);
    }
  }

  /**
   * Every handshake follows the script at every turn of a walk and after it exactly when no turn of it
   * strays; the walk may be restarted any number of times.
   */
  lemma {:induction false} WalkShaken(s: Sys, cur: int, visits: seq<Env>)
    requires Base(s) && (cur == NULL || cur in s.live) && Shaken(s)
    ensures ScriptAlong(Walk(s, cur, visits)) <==> !Strayed(Walk(s, cur, visits).turns)
    decreases Potential(s.st), |From(s.live, cur)|
  {
    if cur != NULL {
      WalkProgress(s, cur, Next(visits));
      TurnThenScript(s, cur, visits);
      var r := Visit(s, cur, Next(visits));
      var next := NextOf(s.live, cur);
      if r.ok && Strays(s, cur, Next(visits)) {
        WalkStartsAt(r.s, next, Rest(visits));
      } else if r.ok {
        WalkShaken(r.s, next, Rest(visits));
      }
    }
  }

  /** Where every pair stays related no turn strays. */
  lemma GoodNeverStrays(w: WalkResult)
    requires GoodAlong(w) && forall t :: t in w.turns ==> t.slot in t.before.live
    ensures !Strayed(w.turns)
  {
    forall t | t in w.turns && Shape(t.before) && IsSlot(t.slot)
      ensures !Strays(t.before, t.slot, t.e)
    {
      RelatedNeverStrays(t.before, t.slot, t.e);
    }
  }

  lemma {:induction false} TurnsAreLive(s: Sys, cur: int, visits: seq<Env>)
    requires Base(s) && (cur == NULL || cur in s.live)
    ensures forall t :: t in Walk(s, cur, visits).turns ==> t.slot in t.before.live
    decreases Potential(s.st), |From(s.live, cur)|
  {
    if cur != NULL {
      WalkProgress(s, cur, Next(visits));
      WalkTurn(s, cur, visits);
      if Visit(s, cur, Next(visits)).ok {
        TurnsAreLive(Visit(s, cur, Next(visits)).s, NextOf(s.live, cur), Rest(visits));
      }
    }
  }

  /** A walk that evicts no stale stream does not stray. */
  lemma CalmWalkShaken(s: Sys, cur: int, visits: seq<Env>)
    requires Good(s) && (cur == NULL || cur in s.live) && !Walk(s, cur, visits).stale
    ensures !Strayed(Walk(s, cur, visits).turns)
  {
    WalkGood(s, cur, visits);
    TurnsAreLive(s, cur, visits);
    GoodNeverStrays(Walk(s, cur, visits));
  }

  /** Each turn is taken with events its client asked for. */
  ghost predicate AllHeeded(turns: seq<Turn>) {
    forall t :: t in turns ==> Shape(t.before) && Heeded(t.before, [t.slot])
  }

  lemma HeededMore(t: Turn, turns: seq<Turn>)
    requires Shape(t.before) && Heeded(t.before, [t.slot]) && AllHeeded(turns)
    ensures AllHeeded([t] + turns)
  {
  }

  /** A turn of the walk leaves the events of those still to come as they were asked for. */
  lemma TurnHeeded(s: Sys, cur: int, e: Env)
    requires Base(s) && cur in s.live && Shaken(s) && Heeded(s, From(s.live, cur))
    requires Stepped(s, cur, Visit(s, cur, e)) && Shape(Visit(s, cur, e).s)
    requires var next := NextOf(s.live, cur); next == NULL || next != Visit(s, cur, e).victim
    requires Visit(s, cur, e).ok && !Strays(s, cur, e)
    ensures var r := Visit(s, cur, e); Shaken(r.s) && Heeded(r.s, From(r.s.live, NextOf(s.live, cur)))
  {
    var r := Visit(s, cur, e);
    RestOfWalk(s, cur, r);
    VisitShaken(s, cur, e, From(s.live, cur), From(r.s.live, NextOf(s.live, cur)));
  }

  lemma StrayedTurn(s: Sys, cur: int, visits: seq<Env>)
    requires Base(s) && cur in s.live && !Strayed(Walk(s, cur, visits).turns)
    ensures !Strays(s, cur, Next(visits))
  {
    WalkStartsAt(s, cur, visits);
  }

  /**
   * Unless an eviction hits a saved successor, no reply is ever parsed: every client that gets a turn
   * in the handshake has asked for the events it is given.
   */
  lemma {:induction false} WalkHeeded(s: Sys, cur: int, visits: seq<Env>)
    requires Base(s) && (cur == NULL || cur in s.live) && Shaken(s) && Heeded(s, From(s.live, cur))
    requires !Walk(s, cur, visits).hit && !Strayed(Walk(s, cur, visits).turns)
    ensures AllHeeded(Walk(s, cur, visits).turns)
    decreases Potential(s.st), |From(s.live, cur)|
  {
    if cur != NULL {
      var next := NextOf(s.live, cur);
      var r := Visit(s, cur, Next(visits));
      var t := Turn(cur, s, Next(visits));
      WalkProgress(s, cur, Next(visits));
      WalkTurn(s, cur, visits);
      StrayedTurn(s, cur, visits);
      assert From(s.live, cur)[0] == cur;
      if r.ok {
        TurnHeeded(s, cur, Next(visits));
        TurnThenScript(s, cur, visits);
        WalkHeeded(r.s, next, Rest(visits));
        HeededMore(t, Walk(r.s, next, Rest(visits)).turns);
      } else {
        HeededMore(t, []);
        assert [t] + [] == [t];
      }
    }
  }
}
