/**
 * Resolving a name by recursive queries (lib/dns.c:152-436).  The network is an oracle: for the k-th
 * query of a resolution it says what the receive buffer holds afterwards, if anything came at all.
 * Nothing is assumed of the replies; if decompressing a name in one of them does not return, the
 * outcome says so.
 */
module DnsResolve {
  import opened Bytes
  import opened DnsNames
  import opened DnsCompression
  import opened DnsRecords

  const QUERY_LIMIT := 48
  const BUFFER_SIZE := 65536
  const NAME_SIZE := 256

  /** The servers every name is first looked up at, in network order (lib/dns-root.h:11-14). */
  const ROOTS: seq<seq<byte>> := [[8, 8, 8, 8], [8, 8, 4, 4]]

  /** The receive buffer, and how much of it the last packet filled. */
  datatype Packet = Packet(buf: seq<byte>, len: nat)

  /** One query: the clock reading that picks a root server, and the reply. */
  datatype Attempt = Attempt(tick: nat, reply: Option<Packet>)

  datatype Asked = Asked(server: seq<byte>, name: seq<byte>)

  predicate GoodPacket(p: Packet) {
    |p.buf| == BUFFER_SIZE && p.len < BUFFER_SIZE
  }

  predicate GoodReplies(net: seq<Attempt>) {
    forall k :: 0 <= k < |net| && net[k].reply.Some? ==> GoodPacket(net[k].reply.value)
  }

  function At(net: seq<Attempt>, k: nat): Attempt {
    if k < |net| then net[k] else Attempt(0, None)
  }

  function RootFor(net: seq<Attempt>, k: nat): (r: seq<byte>)
    ensures r in ROOTS
  {
    ROOTS[At(net, k).tick % |ROOTS|]
  }

  // ---------------------------------------------------------------------------------------------
  // Sections of a reply
  // ---------------------------------------------------------------------------------------------

  /** Header, echoed name and question precede the records. */
  function Start(name: seq<byte>): nat {
    12 + |name| + 4
  }

  predicate Fits(name: seq<byte>) {
    Start(name) < BUFFER_SIZE
  }

  function Count(p: Packet, at: nat): nat
    requires GoodPacket(p) && at < 12
  {
    Word(p.buf[at], p.buf[at + 1])
  }

  function Section(p: Packet, ptr: nat, n: nat): (seq<nat>, nat)
    requires GoodPacket(p) && ptr < BUFFER_SIZE
  {
    Records(p.buf, ptr, p.len, n)
  }

  function Answers(p: Packet, name: seq<byte>): (seq<nat>, nat)
    requires GoodPacket(p) && Fits(name)
  {
    Section(p, Start(name), Count(p, 6))
  }

  function Authority(p: Packet, name: seq<byte>): (seq<nat>, nat)
    requires GoodPacket(p) && Fits(name)
  {
    Section(p, Answers(p, name).1, Count(p, 8))
  }

  function Additional(p: Packet, name: seq<byte>): (seq<nat>, nat)
    requires GoodPacket(p) && Fits(name)
  {
    Section(p, Authority(p, name).1, Count(p, 10))
  }

  /** The header of a record that lies inside the packet. */
  predicate Within(p: Packet, h: nat) {
    GoodPacket(p) && h + HEADER <= BUFFER_SIZE && h + HEADER + DataLength(p.buf, h) <= p.len
  }

  predicate Inside(p: Packet, hs: seq<nat>) {
    GoodPacket(p) && forall i :: 0 <= i < |hs| ==> Within(p, hs[i])
  }

  predicate IsAddress(p: Packet, h: nat)
    requires GoodPacket(p) && h + HEADER <= BUFFER_SIZE
  {
    RecordType(p.buf, h) == T_A && DataLength(p.buf, h) == 4
  }

  function AddressAt(p: Packet, h: nat): seq<byte>
    requires GoodPacket(p) && h + HEADER + 4 <= BUFFER_SIZE
  {
    p.buf[h + HEADER..h + HEADER + 4]
  }

  /** What decompressing the host name in a record's data comes to. */
  function HostScan(p: Packet, h: nat): Result
    requires GoodPacket(p) && h + HEADER <= BUFFER_SIZE
  {
    Scan(p.buf, p.len, h + HEADER, NAME_SIZE)
  }

  /** The host name in a record's data, in wire form. */
  function HostAt(p: Packet, h: nat): (r: Option<seq<byte>>)
    requires GoodPacket(p) && h + HEADER <= BUFFER_SIZE
    ensures r.Some? ==> Fits(r.value)
  {
    match HostScan(p, h)
    case Wrote(name) => Some(name)
    case _ => None
  }

  function FirstAddress(p: Packet, hs: seq<nat>): (r: Option<nat>)
    requires Inside(p, hs)
    ensures r.Some? ==> r.value in hs && r.value + HEADER + 4 <= BUFFER_SIZE && IsAddress(p, r.value)
  {
    if hs == [] then None
    else if IsAddress(p, hs[0]) then Some(hs[0])
    else FirstAddress(p, hs[1..])
  }

  // ---------------------------------------------------------------------------------------------
  // Queries
  // ---------------------------------------------------------------------------------------------

  /** How an address was found: the reply it is in, and the steps that led to asking for that reply. */
  datatype Derivation =
    | Direct(query: nat, header: nat, addr: seq<byte>)
    | ViaAdditional(query: nat, header: nat, rest: Derivation)
    | ViaServer(query: nat, header: nat, server: Derivation, rest: Derivation)
    | ViaAlias(query: nat, header: nat, rest: Derivation)

  function Address(d: Derivation): seq<byte> {
    match d
    case Direct(_, _, addr) => addr
    case ViaAdditional(_, _, rest) => Address(rest)
    case ViaServer(_, _, _, rest) => Address(rest)
    case ViaAlias(_, _, rest) => Address(rest)
  }

  /**
   * The outcome, the queries made so far (their number is the counter all calls share), and whether
   * the decompression of a name never returned.
   */
  datatype Answer = Answer(found: Option<Derivation>, log: seq<Asked>, stuck: bool)

  function Nothing(log: seq<Asked>): Answer {
    Answer(None, log, false)
  }

  function Found(d: Derivation, log: seq<Asked>): Answer {
    Answer(Some(d), log, false)
  }

  /** A search goes on after this. */
  predicate Fruitless(r: Answer) {
    r.found.None? && !r.stuck
  }

  /** dns_recursive_query. */
  function Query(net: seq<Attempt>, log: seq<Asked>, name: seq<byte>, server: seq<byte>): (r: Answer)
    requires GoodReplies(net) && |log| <= QUERY_LIMIT && Fits(name)
    ensures log <= r.log && |r.log| <= QUERY_LIMIT && (r.stuck ==> r.found.None?)
    decreases QUERY_LIMIT - |log|, 0, 0
  {
    if |log| == QUERY_LIMIT then Nothing(log)
    else
      var asked := log + [Asked(server, name)];
      match At(net, |log|).reply
      case None => Nothing(asked)
      case Some(p) => Examine(net, asked, name, p, |log|)
  }

  /** What is done with the reply to query `k`. */
  function Examine(net: seq<Attempt>, log: seq<Asked>, name: seq<byte>, p: Packet, k: nat): (r: Answer)
    requires GoodReplies(net) && |log| <= QUERY_LIMIT && Fits(name) && GoodPacket(p)
    ensures log <= r.log && |r.log| <= QUERY_LIMIT && (r.stuck ==> r.found.None?)
    decreases QUERY_LIMIT - |log|, 3, 0
  {
    var answers := Answers(p, name).0;
    var direct := FirstAddress(p, answers);
    if direct.Some? then Found(Direct(k, direct.value, AddressAt(p, direct.value)), log)
    else if |answers| < Count(p, 6) || |Authority(p, name).0| < Count(p, 8) then Nothing(log)
    else
      var r := TryAdditional(net, log, name, p, k, Additional(p, name).0);
      if !Fruitless(r) then r
      else
        var t := TryServers(net, r.log, name, p, k, Authority(p, name).0);
        if !Fruitless(t) then t
        else TryAliases(net, t.log, p, k, answers)
  }

  /** Each address in the ADDITIONAL section is asked for the same name. */
  function TryAdditional(net: seq<Attempt>, log: seq<Asked>, name: seq<byte>, p: Packet, k: nat, hs: seq<nat>): (r: Answer)
    requires GoodReplies(net) && |log| <= QUERY_LIMIT && Fits(name) && Inside(p, hs)
    ensures log <= r.log && |r.log| <= QUERY_LIMIT && (r.stuck ==> r.found.None?)
    decreases QUERY_LIMIT - |log|, 2, |hs|
  {
    if hs == [] then Nothing(log)
    else
      var r := OneAdditional(net, log, name, p, k, hs[0]);
      if !Fruitless(r) then r else TryAdditional(net, r.log, name, p, k, hs[1..])
  }

  function OneAdditional(net: seq<Attempt>, log: seq<Asked>, name: seq<byte>, p: Packet, k: nat, h: nat): (r: Answer)
    requires GoodReplies(net) && |log| <= QUERY_LIMIT && Fits(name) && Within(p, h)
    ensures log <= r.log && |r.log| <= QUERY_LIMIT && (r.stuck ==> r.found.None?)
    decreases QUERY_LIMIT - |log|, 2, 0
  {
    if !IsAddress(p, h) then Nothing(log)
    else
      var r := Query(net, log, name, AddressAt(p, h));
      if r.found.Some? then Found(ViaAdditional(k, h, r.found.value), r.log) else r
  }

  /** Each name server of the AUTHORITY section is resolved and then asked for the same name. */
  function TryServers(net: seq<Attempt>, log: seq<Asked>, name: seq<byte>, p: Packet, k: nat, hs: seq<nat>): (r: Answer)
    requires GoodReplies(net) && |log| <= QUERY_LIMIT && Fits(name) && Inside(p, hs)
    ensures log <= r.log && |r.log| <= QUERY_LIMIT && (r.stuck ==> r.found.None?)
    decreases QUERY_LIMIT - |log|, 2, |hs|
  {
    if hs == [] then Nothing(log)
    else
      var r := OneServer(net, log, name, p, k, hs[0]);
      if !Fruitless(r) then r else TryServers(net, r.log, name, p, k, hs[1..])
  }

  function OneServer(net: seq<Attempt>, log: seq<Asked>, name: seq<byte>, p: Packet, k: nat, h: nat): (r: Answer)
    requires GoodReplies(net) && |log| <= QUERY_LIMIT && Fits(name) && Within(p, h)
    ensures log <= r.log && |r.log| <= QUERY_LIMIT && (r.stuck ==> r.found.None?)
    decreases QUERY_LIMIT - |log|, 2, 0
  {
    if RecordType(p.buf, h) != T_NS then Nothing(log)
    else if HostAt(p, h).None? then Answer(None, log, HostScan(p, h) == Loops)
    else
      var host := ResolveRoot(net, log, HostAt(p, h).value);
      if host.found.None? then host
      else
        var r := Query(net, host.log, name, Address(host.found.value));
        if r.found.Some? then Found(ViaServer(k, h, host.found.value, r.found.value), r.log) else r
  }

  /** Each canonical name in the ANSWER section is resolved instead. */
  function TryAliases(net: seq<Attempt>, log: seq<Asked>, p: Packet, k: nat, hs: seq<nat>): (r: Answer)
    requires GoodReplies(net) && |log| <= QUERY_LIMIT && Inside(p, hs)
    ensures log <= r.log && |r.log| <= QUERY_LIMIT && (r.stuck ==> r.found.None?)
    decreases QUERY_LIMIT - |log|, 2, |hs|
  {
    if hs == [] then Nothing(log)
    else
      var r := OneAlias(net, log, p, k, hs[0]);
      if !Fruitless(r) then r else TryAliases(net, r.log, p, k, hs[1..])
  }

  function OneAlias(net: seq<Attempt>, log: seq<Asked>, p: Packet, k: nat, h: nat): (r: Answer)
    requires GoodReplies(net) && |log| <= QUERY_LIMIT && Within(p, h)
    ensures log <= r.log && |r.log| <= QUERY_LIMIT && (r.stuck ==> r.found.None?)
    decreases QUERY_LIMIT - |log|, 2, 0
  {
    if RecordType(p.buf, h) != T_CNAME then Nothing(log)
    else if HostAt(p, h).None? then Answer(None, log, HostScan(p, h) == Loops)
    else
      var r := ResolveRoot(net, log, HostAt(p, h).value);
      if r.found.Some? then Found(ViaAlias(k, h, r.found.value), r.log) else r
  }

  /** dns_resolve_root. */
  function ResolveRoot(net: seq<Attempt>, log: seq<Asked>, name: seq<byte>): (r: Answer)
    requires GoodReplies(net) && |log| <= QUERY_LIMIT && Fits(name)
    ensures log <= r.log && |r.log| <= QUERY_LIMIT && (r.stuck ==> r.found.None?)
    decreases QUERY_LIMIT - |log|, 1, 0
  {
    Query(net, log, name, RootFor(net, |log|))
  }

  // ---------------------------------------------------------------------------------------------
  // Where an address comes from
  // ---------------------------------------------------------------------------------------------

  /** The record whose header is at `h` is an address record, with these four octets as its data. */
  predicate HoldsAddress(p: Packet, h: nat, addr: seq<byte>) {
    && h + 14 <= |p.buf| && p.buf[h] == 0 && p.buf[h + 1] == 1 && p.buf[h + 8] == 0 && p.buf[h + 9] == 4
    && addr == p.buf[h + 10..h + 14]
  }

  /** The record whose header is at `h` is of this type. */
  predicate HoldsType(p: Packet, h: nat, typ: byte) {
    h + 10 <= |p.buf| && p.buf[h] == 0 && p.buf[h + 1] == typ
  }

  lemma AddressHeld(p: Packet, h: nat)
    requires Within(p, h) && IsAddress(p, h)
    ensures h + HEADER + 4 <= BUFFER_SIZE && HoldsAddress(p, h, AddressAt(p, h))
  {
  }

  /** Query `k` asked `server` for `name`, and a reply came. */
  predicate Replied(net: seq<Attempt>, log: seq<Asked>, k: nat, name: seq<byte>, server: seq<byte>) {
    k < |log| && log[k] == Asked(server, name) && At(net, k).reply.Some?
  }

  /** Every step of the derivation is backed by a record in a reply to a query that was made. */
  ghost predicate Justified(net: seq<Attempt>, log: seq<Asked>, name: seq<byte>, server: seq<byte>, d: Derivation)
    requires GoodReplies(net)
    decreases d
  {
    && Fits(name) && Replied(net, log, d.query, name, server)
    && var p := At(net, d.query).reply.value;
       match d
       case Direct(_, h, addr) =>
         h in Answers(p, name).0 && HoldsAddress(p, h, addr)
       case ViaAdditional(_, h, rest) =>
         && h in Additional(p, name).0
         && exists server :: HoldsAddress(p, h, server) && Justified(net, log, name, server, rest)
       case ViaServer(_, h, host, rest) =>
         && h in Authority(p, name).0 && HoldsType(p, h, 2) && h + HEADER <= BUFFER_SIZE && HostAt(p, h).Some?
         && (exists root :: root in ROOTS && Justified(net, log, HostAt(p, h).value, root, host))
         && Justified(net, log, name, Address(host), rest)
       case ViaAlias(_, h, rest) =>
         && h in Answers(p, name).0 && HoldsType(p, h, 5) && h + HEADER <= BUFFER_SIZE && HostAt(p, h).Some?
         && (exists root :: root in ROOTS && Justified(net, log, HostAt(p, h).value, root, rest))
  }

  /** Later queries take nothing away. */
  lemma {:induction false} JustifiedLater(net: seq<Attempt>, log: seq<Asked>, more: seq<Asked>, name: seq<byte>, server: seq<byte>, d: Derivation)
    requires GoodReplies(net) && log <= more && Justified(net, log, name, server, d)
    ensures Justified(net, more, name, server, d)
    decreases d
  {
    var p := At(net, d.query).reply.value;
    match d
    case Direct(_, h, addr) =>
    case ViaAdditional(_, h, rest) =>
      var from :| HoldsAddress(p, h, from) && Justified(net, log, name, from, rest);
      JustifiedLater(net, log, more, name, from, rest);
    case ViaServer(_, h, host, rest) =>
      var root :| root in ROOTS && Justified(net, log, HostAt(p, h).value, root, host);
      JustifiedLater(net, log, more, HostAt(p, h).value, root, host);
      JustifiedLater(net, log, more, name, Address(host), rest);
    case ViaAlias(_, h, rest) =>
      var root :| root in ROOTS && Justified(net, log, HostAt(p, h).value, root, rest);
      JustifiedLater(net, log, more, HostAt(p, h).value, root, rest);
  }

  /**
   * A reply to a query that was made has a record, in a section as it is parsed for the name asked, that
   * names a server or an alias by a circle of pointers.
   */
  ghost predicate Circular(net: seq<Attempt>, log: seq<Asked>)
    requires GoodReplies(net)
  {
    exists k: nat, h: nat :: CircularAt(net, log, k, h)
  }

  predicate CircularAt(net: seq<Attempt>, log: seq<Asked>, k: nat, h: nat)
    requires GoodReplies(net)
  {
    && k < |log| && At(net, k).reply.Some? && Fits(log[k].name)
    && var p := At(net, k).reply.value;
       && (h in Answers(p, log[k].name).0 || h in Authority(p, log[k].name).0)
       && h + HEADER <= BUFFER_SIZE && (RecordType(p.buf, h) == T_NS || RecordType(p.buf, h) == T_CNAME)
       && HostScan(p, h) == Loops
  }

  /** What a search found is backed by the replies, and if it never ends so is that. */
  ghost predicate Backed(net: seq<Attempt>, name: seq<byte>, server: seq<byte>, r: Answer)
    requires GoodReplies(net)
  {
    && (r.found.Some? ==> Justified(net, r.log, name, server, r.found.value))
    && (r.stuck ==> Circular(net, r.log))
  }

  /** The reply to query `k` for `name` from `server` is `p`. */
  ghost predicate Heard(net: seq<Attempt>, log: seq<Asked>, k: nat, name: seq<byte>, server: seq<byte>, p: Packet)
    requires GoodReplies(net)
  {
    Fits(name) && Replied(net, log, k, name, server) && At(net, k).reply.value == p && GoodPacket(p)
  }

  lemma HeardLater(net: seq<Attempt>, log: seq<Asked>, more: seq<Asked>, k: nat, name: seq<byte>, server: seq<byte>, p: Packet)
    requires GoodReplies(net) && log <= more && Heard(net, log, k, name, server, p)
    ensures Heard(net, more, k, name, server, p)
  {
  }

  /** Every address a resolution reports is backed, step by step, by the replies. */
  lemma {:induction false} QueryJustified(net: seq<Attempt>, log: seq<Asked>, name: seq<byte>, server: seq<byte>)
    requires GoodReplies(net) && |log| <= QUERY_LIMIT && Fits(name)
    ensures Backed(net, name, server, Query(net, log, name, server))
    decreases QUERY_LIMIT - |log|, 0, 0
  {
    if |log| < QUERY_LIMIT && At(net, |log|).reply.Some? {
      var asked := log + [Asked(server, name)];
      ExamineJustified(net, asked, name, At(net, |log|).reply.value, |log|, server);
    }
  }

  lemma {:induction false} ExamineJustified(net: seq<Attempt>, log: seq<Asked>, name: seq<byte>, p: Packet, k: nat, server: seq<byte>)
    requires GoodReplies(net) && |log| <= QUERY_LIMIT && Heard(net, log, k, name, server, p)
    ensures Backed(net, name, server, Examine(net, log, name, p, k))
    decreases QUERY_LIMIT - |log|, 3, 0
  {
    var answers := Answers(p, name).0;
    if FirstAddress(p, answers).Some? {
      AddressHeld(p, FirstAddress(p, answers).value);
    }
    if FirstAddress(p, answers).None? && |answers| >= Count(p, 6) && |Authority(p, name).0| >= Count(p, 8) {
      var r := TryAdditional(net, log, name, p, k, Additional(p, name).0);
      AdditionalJustified(net, log, name, p, k, server, Additional(p, name).0);
      HeardLater(net, log, r.log, k, name, server, p);
      if Fruitless(r) {
        var t := TryServers(net, r.log, name, p, k, Authority(p, name).0);
        ServersJustified(net, r.log, name, p, k, server, Authority(p, name).0);
        HeardLater(net, r.log, t.log, k, name, server, p);
        if Fruitless(t) {
          AliasesJustified(net, t.log, name, p, k, server, answers);
        }
      }
    }
  }

  lemma {:induction false} AdditionalJustified(net: seq<Attempt>, log: seq<Asked>, name: seq<byte>, p: Packet, k: nat, server: seq<byte>, hs: seq<nat>)
    requires GoodReplies(net) && |log| <= QUERY_LIMIT && Heard(net, log, k, name, server, p) && Inside(p, hs)
    requires forall i :: 0 <= i < |hs| ==> hs[i] in Additional(p, name).0
    ensures Backed(net, name, server, TryAdditional(net, log, name, p, k, hs))
    decreases QUERY_LIMIT - |log|, 2, |hs|
  {
    if hs != [] {
      if IsAddress(p, hs[0]) {
        AddressHeld(p, hs[0]);
        QueryJustified(net, log, name, AddressAt(p, hs[0]));
      }
      var r := OneAdditional(net, log, name, p, k, hs[0]);
      HeardLater(net, log, r.log, k, name, server, p);
      if Fruitless(r) {
        AdditionalJustified(net, r.log, name, p, k, server, hs[1..]);
      }
    }
  }

  lemma {:induction false} ServersJustified(net: seq<Attempt>, log: seq<Asked>, name: seq<byte>, p: Packet, k: nat, server: seq<byte>, hs: seq<nat>)
    requires GoodReplies(net) && |log| <= QUERY_LIMIT && Heard(net, log, k, name, server, p) && Inside(p, hs)
    requires forall i :: 0 <= i < |hs| ==> hs[i] in Authority(p, name).0
    ensures Backed(net, name, server, TryServers(net, log, name, p, k, hs))
    decreases QUERY_LIMIT - |log|, 2, |hs|
  {
    if hs != [] {
      ServerJustified(net, log, name, p, k, server, hs[0]);
      var r := OneServer(net, log, name, p, k, hs[0]);
      HeardLater(net, log, r.log, k, name, server, p);
      if Fruitless(r) {
        ServersJustified(net, r.log, name, p, k, server, hs[1..]);
      }
    }
  }

  lemma {:induction false} ServerJustified(net: seq<Attempt>, log: seq<Asked>, name: seq<byte>, p: Packet, k: nat, server: seq<byte>, h: nat)
    requires GoodReplies(net) && |log| <= QUERY_LIMIT && Heard(net, log, k, name, server, p) && Within(p, h)
    requires h in Authority(p, name).0
    ensures Backed(net, name, server, OneServer(net, log, name, p, k, h))
    decreases QUERY_LIMIT - |log|, 2, 0
  {
    if RecordType(p.buf, h) == T_NS && HostScan(p, h) == Loops {
      assert CircularAt(net, log, k, h);
    } else if RecordType(p.buf, h) == T_NS && HostAt(p, h).Some? {
      var host := ResolveRoot(net, log, HostAt(p, h).value);
      RootJustified(net, log, HostAt(p, h).value);
      if host.found.Some? {
        QueryJustified(net, host.log, name, Address(host.found.value));
        var r := Query(net, host.log, name, Address(host.found.value));
        HeardLater(net, log, r.log, k, name, server, p);
        var root :| root in ROOTS && Justified(net, host.log, HostAt(p, h).value, root, host.found.value);
        JustifiedLater(net, host.log, r.log, HostAt(p, h).value, root, host.found.value);
      }
    }
  }

  lemma {:induction false} AliasesJustified(net: seq<Attempt>, log: seq<Asked>, name: seq<byte>, p: Packet, k: nat, server: seq<byte>, hs: seq<nat>)
    requires GoodReplies(net) && |log| <= QUERY_LIMIT && Heard(net, log, k, name, server, p) && Inside(p, hs)
    requires forall i :: 0 <= i < |hs| ==> hs[i] in Answers(p, name).0
    ensures Backed(net, name, server, TryAliases(net, log, p, k, hs))
    decreases QUERY_LIMIT - |log|, 2, |hs|
  {
    if hs != [] {
      if RecordType(p.buf, hs[0]) == T_CNAME && HostScan(p, hs[0]) == Loops {
        assert CircularAt(net, log, k, hs[0]);
      } else if RecordType(p.buf, hs[0]) == T_CNAME && HostAt(p, hs[0]).Some? {
        RootJustified(net, log, HostAt(p, hs[0]).value);
      }
      var r := OneAlias(net, log, p, k, hs[0]);
      HeardLater(net, log, r.log, k, name, server, p);
      if Fruitless(r) {
        AliasesJustified(net, r.log, name, p, k, server, hs[1..]);
      }
    }
  }

  lemma {:induction false} RootJustified(net: seq<Attempt>, log: seq<Asked>, name: seq<byte>)
    requires GoodReplies(net) && |log| <= QUERY_LIMIT && Fits(name)
    ensures var r := ResolveRoot(net, log, name);
      && (r.found.Some? ==> exists root :: root in ROOTS && Justified(net, r.log, name, root, r.found.value))
      && (r.stuck ==> Circular(net, r.log))
    decreases QUERY_LIMIT - |log|, 1, 0
  {
    QueryJustified(net, log, name, RootFor(net, |log|));
    assert RootFor(net, |log|) in ROOTS;
  }

  /** The data of an address record in the ANSWER section of a reply to a query that was made. */
  ghost predicate IsAnswered(net: seq<Attempt>, log: seq<Asked>, addr: seq<byte>)
    requires GoodReplies(net)
  {
    exists k: nat, h: nat ::
      && k < |log| && At(net, k).reply.Some? && Fits(log[k].name)
      && h in Answers(At(net, k).reply.value, log[k].name).0
      && HoldsAddress(At(net, k).reply.value, h, addr)
  }

  lemma {:induction false} JustifiedIsAnswered(net: seq<Attempt>, log: seq<Asked>, name: seq<byte>, server: seq<byte>, d: Derivation)
    requires GoodReplies(net) && Justified(net, log, name, server, d)
    ensures IsAnswered(net, log, Address(d))
    decreases d
  {
    var p := At(net, d.query).reply.value;
    match d
    case Direct(k, h, addr) =>
      assert log[k].name == name;
    case ViaAdditional(_, h, rest) =>
      var from :| HoldsAddress(p, h, from) && Justified(net, log, name, from, rest);
      JustifiedIsAnswered(net, log, name, from, rest);
    case ViaServer(_, _, host, rest) =>
      JustifiedIsAnswered(net, log, name, Address(host), rest);
    case ViaAlias(_, h, rest) =>
      var root :| root in ROOTS && Justified(net, log, HostAt(p, h).value, root, rest);
      JustifiedIsAnswered(net, log, HostAt(p, h).value, root, rest);
  }

  /** What is said of a resolution, wherever it starts. */
  ghost predicate Sound(net: seq<Attempt>, name: seq<byte>, r: Answer)
    requires GoodReplies(net)
  {
    && |r.log| <= 48 && (r.stuck ==> Circular(net, r.log))
    && (r.found.Some? ==>
          && IsAnswered(net, r.log, Address(r.found.value)) && |Address(r.found.value)| == 4
          && exists root :: root in ROOTS && Justified(net, r.log, name, root, r.found.value))
  }

  lemma SoundFrom(net: seq<Attempt>, log: seq<Asked>, name: seq<byte>)
    requires GoodReplies(net) && |log| <= QUERY_LIMIT && Fits(name)
    ensures Sound(net, name, ResolveRoot(net, log, name))
  {
    var r := ResolveRoot(net, log, name);
    RootJustified(net, log, name);
    if r.found.Some? {
      var root :| root in ROOTS && Justified(net, r.log, name, root, r.found.value);
      JustifiedIsAnswered(net, r.log, name, root, r.found.value);
    }
  }

  /**
   * A resolution that succeeds reports the four octets of an address record from the ANSWER section of
   * one of its replies, reached by a chain of steps that the replies back; however the replies are
   * made, it asks at most 48 times in all; and it ends unless one of them has a circle of
   * pointers where, for the name that was asked, a server or an alias is named.
   */
  lemma ResolutionSound(net: seq<Attempt>, name: seq<byte>)
    requires GoodReplies(net) && Fits(name)
    ensures Sound(net, name, ResolveRoot(net, [], name))
  {
    SoundFrom(net, [], name);
  }

  // ---------------------------------------------------------------------------------------------
  // A resolution that never ends
  // ---------------------------------------------------------------------------------------------

  /** A reply with one answer, an alias that is named by a circle of pointers, and nothing else. */
  predicate Poisoned(p: Packet, name: seq<byte>)
    requires GoodPacket(p) && Fits(name)
  {
    && Count(p, 6) == 1 && Count(p, 8) == 0 && Count(p, 10) == 0
    && |Answers(p, name).0| == 1
    && var h := Answers(p, name).0[0];
       RecordType(p.buf, h) == T_CNAME && h + HEADER <= BUFFER_SIZE && HostScan(p, h) == Loops
  }

  /** Such a reply to the first query is enough. */
  lemma PoisonSticks(net: seq<Attempt>, name: seq<byte>, p: Packet)
    requires GoodReplies(net) && Fits(name) && At(net, 0).reply == Some(p) && Poisoned(p, name)
    ensures ResolveRoot(net, [], name).stuck
  {
    var hs := Answers(p, name).0;
    assert hs == [hs[0]] && FirstAddress(p, hs[1..]) == None;
    assert FirstAddress(p, hs) == None;
    var log := [] + [Asked(RootFor(net, 0), name)];
    assert OneAlias(net, log, p, 0, hs[0]).stuck;
    assert TryAliases(net, log, p, 0, hs).stuck;
    assert Additional(p, name).0 == [] && Authority(p, name).0 == [];
    assert Examine(net, log, name, p, 0) == TryAliases(net, log, p, 0, hs);
  }

  /** A name of one letter. */
  const LETTER: seq<byte> := [1, 97, 0]

  /** A reply to a query for it, after the two octets of its id: the one answer, at octet 19, is an alias that points at itself. */
  const POISON: seq<byte> :=
    [0x81, 0x80, 0, 1, 0, 1, 0, 0, 0, 0, 1, 97, 0, 0, 1, 0, 1, 0xC0, 12, 0, 5, 0, 1, 0, 0, 0, 60, 0, 2, 0xC0, 31]

  predicate IsPoison(p: Packet) {
    GoodPacket(p) && p.len == 2 + |POISON| && p.buf[2..p.len] == POISON
  }

  lemma PoisonCounts(p: Packet)
    requires IsPoison(p)
    ensures p.len == 33 && Count(p, 6) == 1 && Count(p, 8) == 0 && Count(p, 10) == 0
  {
    var q := p.buf[2..p.len];
    assert p.buf[6] == q[4] && p.buf[7] == q[5] && p.buf[8] == q[6] && p.buf[9] == q[7] && p.buf[10] == q[8] && p.buf[11] == q[9];
  }

  lemma PoisonRecord(p: Packet)
    requires IsPoison(p)
    ensures p.buf[19] == 0xC0 && RecordType(p.buf, 21) == T_CNAME && DataLength(p.buf, 21) == 2
    ensures p.buf[31] == 0xC0 && p.buf[32] == 31
  {
    var q := p.buf[2..p.len];
    assert p.buf[19] == q[17] && p.buf[21] == q[19] && p.buf[22] == q[20];
    assert p.buf[29] == q[27] && p.buf[30] == q[28] && p.buf[31] == q[29] && p.buf[32] == q[30];
  }

  /** A section of one record. */
  lemma OneRecord(p: Packet, ptr: nat, h: nat)
    requires GoodPacket(p) && ptr < BUFFER_SIZE && Nearby(p.buf, ptr, p.len) == Some(h)
    ensures Section(p, ptr, 1).0 == [h]
  {
    assert Records(p.buf, After(p.buf, h), p.len, 0).0 == [];
  }

  lemma PointedRecord(p: Packet, ptr: nat)
    requires GoodPacket(p) && ptr + 2 + HEADER <= p.len && p.buf[ptr] >= POINTER_TAG
    requires ptr + 2 + HEADER + DataLength(p.buf, ptr + 2) <= p.len
    ensures Nearby(p.buf, ptr, p.len) == Some(ptr + 2)
  {
  }

  lemma PoisonIsPoisoned(p: Packet)
    requires IsPoison(p)
    ensures Fits(LETTER) && Poisoned(p, LETTER)
  {
    PoisonCounts(p);
    PoisonRecord(p);
    PointedRecord(p, 19);
    OneRecord(p, Start(LETTER), 21);
    assert Answers(p, LETTER).0 == [21];
    assert Target(p.buf, 31) == 31 by {
      assert Word(p.buf[31], p.buf[32]) == 48 * MAX_HOPS + 31;
    }
    SelfPointerSpins(p.buf, p.len, 31, NAME_SIZE);
  }

  /** Resolving that name does not end when the first reply is such a packet, whatever comes later. */
  lemma SelfAliasNeverEnds(net: seq<Attempt>, p: Packet)
    requires GoodReplies(net) && net != [] && net[0].reply == Some(p) && IsPoison(p)
    ensures Fits(LETTER) && ResolveRoot(net, [], LETTER).stuck
  {
    PoisonIsPoisoned(p);
    PoisonSticks(net, LETTER, p);
  }
}
