/**
 * The state of the proxy as a value: the live streams in list order, what each slot holds, and the
 * part of the kernel the proxy can see.  Each operation of src/util.c on streams is given here as a
 * function on that state; class Proxy carries them out in place on the linked pool.
 */
module Streams {
  import opened Bytes
  import opened PollEvents
  import opened LiveLists
  import opened Socks

  const POOL_SIZE: nat := 256
  const FORWARD_CHUNK := 16384

  datatype Role = Invalid | Listener | Client | Endpoint

  /** How a stream is registered: not at all, by its entry in poll's array, or with epoll. */
  datatype PollRef = Unwatched | InPollList(index: nat) | InEpoll

  /**
   * The socket behind a stream's descriptor: bytes received but not read yet and bytes sent.  The
   * other fields are an account the model keeps: the bytes read since the last reply was queued and,
   * since the stream was created or promoted, all bytes that arrived and, of the bytes sent, those that
   * were forwarded from the other side and those that came from the queue.
   */
  datatype Sock = Sock(
    unread: seq<byte>, sent: seq<byte>, arrived: seq<byte>, heard: seq<byte>,
    passed: seq<byte>, said: seq<byte>)

  /** One stream_t without its list links; `drained` records a reply fully sent before promotion. */
  datatype Stream = Stream(
    role: Role, fd: int, level: Level, abandoned: bool,
    events: Events, levents: Events, revents: Events,
    pollref: PollRef, neighbour: int, queue: seq<byte>,
    sock: Sock, drained: bool)

  /** Descriptors open now, and every opening and closing so far. */
  datatype Descriptors = Descriptors(open: set<int>, acquired: multiset<int>, released: multiset<int>) {
    function Open(fd: int): Descriptors {
      Descriptors(open + {fd}, acquired + multiset{fd}, released)
    }

    function Close(fd: int): Descriptors {
      Descriptors(open - {fd}, acquired, released + multiset{fd})
    }
  }

  /** One entry of the epoll interest list. */
  datatype Watch = Watch(mask: Events, ptr: int)

  datatype Os = Os(epfd: int, fds: Descriptors, kernel: map<int, Watch>)

  datatype Sys = Sys(
    live: seq<int>, st: seq<Stream>, stamp: seq<nat>, clock: nat,
    os: Os, evictions: nat)

  /** What memset leaves in a slot that insert_stream is about to hand out. */
  function Blank(fd: int): Stream {
    Stream(Invalid, fd, Idle, false, NONE, NONE, NONE, Unwatched, NULL, [], Sock([], [], [], [], [], []), false)
  }

  // ---------------------------------------------------------------------------------------------
  // What every operation keeps, whatever happens
  // ---------------------------------------------------------------------------------------------

  predicate IsSlot(i: int) {
    0 <= i < POOL_SIZE
  }

  ghost predicate Shape(s: Sys) {
    && |s.st| == POOL_SIZE && |s.stamp| == POOL_SIZE
    && Descending(s.live, s.stamp)
    && (forall i :: i in s.live ==> IsSlot(i) && s.stamp[i] < s.clock)
    && (forall i :: IsSlot(i) ==> s.st[i].neighbour == NULL || (IsSlot(s.st[i].neighbour) && s.st[i].neighbour != i))
  }

  /** Every live stream has a role; the listener is the stream created first. */
  ghost predicate Roles(s: Sys)
    requires Shape(s)
  {
    && s.clock > 0
    && forall i :: i in s.live ==> s.st[i].role != Invalid && (s.st[i].role == Listener <==> s.stamp[i] == 0)
  }

  /** The precondition of a handler. */
  ghost predicate Sound(s: Sys) {
    Shape(s) && Roles(s)
  }

  ghost function LiveFds(s: Sys): set<int>
    requires Shape(s)
  {
    set i | i in s.live :: s.st[i].fd
  }

  ghost function EpollFd(os: Os): set<int> {
    if os.epfd >= 0 then {os.epfd} else {}
  }

  /**
   * Descriptor conservation, while the descriptors in `loose` are open but not yet in a stream:
   * live streams own distinct descriptors, nothing else is open but the epoll descriptor, and every
   * opening has been matched by one closing unless the descriptor is open still.
   */
  ghost predicate Conserved(s: Sys, loose: set<int>)
    requires Shape(s)
  {
    && s.os.fds.open == LiveFds(s) + EpollFd(s.os) + loose
    && LiveFds(s) !! EpollFd(s.os) !! loose
    && (forall i :: i in s.live ==> s.st[i].fd >= 0)
    && (forall i, j :: i in s.live && j in s.live && i != j ==> s.st[i].fd != s.st[j].fd)
    && s.os.fds.acquired == s.os.fds.released + multiset(s.os.fds.open)
  }

  predicate RegisteredAt(s: Sys, i: int)
    requires |s.st| == POOL_SIZE && IsSlot(i)
  {
    var x := s.st[i];
    if x.pollref == Unwatched then x.fd !in s.os.kernel
    else x.fd in s.os.kernel && s.os.kernel[x.fd] == Watch(x.levents.Armed(), i)
  }

  /** The epoll interest list agrees with `pollref` and `levents`, and points at live streams only. */
  ghost predicate KernelAgrees(s: Sys)
    requires Shape(s)
  {
    if s.os.epfd < 0 then s.os.kernel == map[]
    else
      && s.os.kernel.Keys <= LiveFds(s)
      && forall i :: i in s.live ==> RegisteredAt(s, i)
  }

  ghost predicate Base(s: Sys) {
    Sound(s) && Conserved(s, {}) && KernelAgrees(s)
  }

  // ---------------------------------------------------------------------------------------------
  // Streams in and out of the list
  // ---------------------------------------------------------------------------------------------

  function FreeSlot(s: Sys): int {
    FreeFrom(s.live, 0, POOL_SIZE)
  }

  /** insert_stream when a slot is free: the first one is cleared and becomes the head. */
  function Insert(s: Sys, fd: int): Sys
    requires Shape(s) && FreeSlot(s) != NULL
  {
    var k := FreeSlot(s);
    s.(live := [k] + s.live, st := s.st[k := Blank(fd)], stamp := s.stamp[k := s.clock], clock := s.clock + 1)
  }

  /** remove_stream: unregistered, closed and unlinked. */
  function Remove(s: Sys, i: int): Sys
    requires Shape(s) && i in s.live
  {
    var x := s.st[i];
    s.(live := Sieve(s.live, {i}),
       st := s.st[i := x.(fd := -1)],
       os := s.os.(fds := s.os.fds.Close(x.fd), kernel := s.os.kernel - {x.fd}))
  }

  /** remove_relation: the stream and whatever `neighbour` points at are marked for removal. */
  function Abandon(s: Sys, i: int): Sys
    requires Shape(s) && IsSlot(i)
  {
    var j := s.st[i].neighbour;
    var st := if j == NULL then s.st else s.st[j := s.st[j].(abandoned := true)];
    s.(st := st[i := st[i].(abandoned := true)])
  }

  function AbandonedIn(s: Sys): set<int>
    requires Shape(s)
  {
    set i | i in s.live && s.st[i].abandoned
  }

  /** Slots that force_cleanup may take first: abandoned streams. */
  function AbandonedExcept(s: Sys, excl: int): set<int>
    requires Shape(s)
  {
    set i | i in s.live && i != excl && s.st[i].abandoned
  }

  /** Slots that it may take otherwise: clients and endpoints. */
  function PairedExcept(s: Sys, excl: int): set<int>
    requires Shape(s)
  {
    set i | i in s.live && i != excl && (s.st[i].role == Client || s.st[i].role == Endpoint)
  }

  function Victim(s: Sys, excl: int): int
    requires Shape(s)
  {
    if LastOf(s.live, AbandonedExcept(s, excl)) != NULL then LastOf(s.live, AbandonedExcept(s, excl))
    else LastOf(s.live, PairedExcept(s, excl))
  }

  /** force_cleanup. */
  function Evict(s: Sys, excl: int): Sys
    requires Shape(s)
  {
    var v := Victim(s, excl);
    if v == NULL then s else Remove(Abandon(s, v), v).(evictions := s.evictions + 1)
  }

  // ---------------------------------------------------------------------------------------------
  // The operations keep the shape of the list
  // ---------------------------------------------------------------------------------------------

  lemma AbandonShape(s: Sys, i: int)
    requires Shape(s) && IsSlot(i)
    ensures Shape(Abandon(s, i))
    ensures Roles(s) ==> Roles(Abandon(s, i))
  {
  }

  lemma RemoveShape(s: Sys, i: int)
    requires Shape(s) && i in s.live
    ensures Shape(Remove(s, i))
    ensures Roles(s) ==> Roles(Remove(s, i))
  {
    SieveDescends(s.live, {i}, s.stamp);
  }

  lemma InsertShape(s: Sys, fd: int)
    requires Shape(s) && FreeSlot(s) != NULL
    ensures Shape(Insert(s, fd))
  {
    ConsDescends(FreeSlot(s), s.live, s.stamp, s.clock);
  }

  lemma EvictShape(s: Sys, excl: int)
    requires Shape(s)
    ensures Shape(Evict(s, excl))
    ensures Roles(s) ==> Roles(Evict(s, excl))
    ensures Evict(s, excl).live == Sieve(s.live, {Victim(s, excl)})
  {
    var v := Victim(s, excl);
    if v != NULL {
      AbandonShape(s, v);
      RemoveShape(Abandon(s, v), v);
    } else {
      SieveNull(s.live, s.stamp);
    }
  }

  lemma StampsDistinct(s: Sys, i: int, j: int)
    requires Shape(s) && i in s.live && j in s.live && i != j
    ensures s.stamp[i] != s.stamp[j]
  {
    var p :| 0 <= p < |s.live| && s.live[p] == i;
    var q :| 0 <= q < |s.live| && s.live[q] == j;
  }

  /**
   * When the pool is full, force_cleanup finds a stream to remove.  Of three occupied slots one is
   * excluded at most and one is the listener at most; the third has a client or an endpoint.
   */
  lemma VictimExists(s: Sys, excl: int)
    requires Sound(s) && FreeSlot(s) == NULL
    ensures Victim(s, excl) != NULL
  {
    assert IsSlot(0) && IsSlot(1) && IsSlot(2);
    assert 0 in s.live && 1 in s.live && 2 in s.live;
    StampsDistinct(s, 0, 1);
    StampsDistinct(s, 0, 2);
    StampsDistinct(s, 1, 2);
    var i := if excl != 0 && s.stamp[0] != 0 then 0 else if excl != 1 && s.stamp[1] != 0 then 1 else 2;
    assert i in s.live && i != excl && s.st[i].role != Invalid && s.st[i].role != Listener;
  }

  /** force_cleanup spares `excl`, takes the oldest abandoned stream if any, else the oldest paired one. */
  lemma VictimIsOldest(s: Sys, excl: int)
    requires Sound(s) && Victim(s, excl) != NULL
    ensures var v := Victim(s, excl);
      && v in s.live && v != excl
      && (s.st[v].role == Listener ==> s.st[v].abandoned)
      && (forall x :: x in s.live && x != excl && s.st[x].abandoned ==> s.st[v].abandoned && s.stamp[v] <= s.stamp[x])
      && (!s.st[v].abandoned ==> forall x :: x in s.live && x != excl && s.st[x].role != Listener ==> s.stamp[v] <= s.stamp[x])
  {
    LastIsOldest(s.live, AbandonedExcept(s, excl), s.stamp);
    LastIsOldest(s.live, PairedExcept(s, excl), s.stamp);
  }

  /** Eviction from a full pool frees exactly one slot, and the next insertion gets that slot. */
  lemma EvictionFreesOneSlot(s: Sys, excl: int)
    requires Sound(s) && FreeSlot(s) == NULL
    ensures var v := Victim(s, excl);
      && v in s.live && v != excl
      && Shape(Evict(s, excl)) && FreeSlot(Evict(s, excl)) == v
      && (forall x :: x in s.live && x != v ==> x in Evict(s, excl).live)
  {
    VictimExists(s, excl);
    EvictShape(s, excl);
    var v := Victim(s, excl);
    assert IsSlot(v);
    OnlyFree(s.live, v, Evict(s, excl).live);
  }

  /** Of a full list without one of its members only that slot is free. */
  lemma OnlyFree(l: seq<int>, v: int, m: seq<int>)
    requires FreeFrom(l, 0, POOL_SIZE) == NULL && IsSlot(v) && m == Sieve(l, {v})
    ensures FreeFrom(m, 0, POOL_SIZE) == v
  {
    var f := FreeFrom(m, 0, POOL_SIZE);
    assert v !in m;
    if f != NULL {
      assert f in l;
    }
  }
}
