/**
 * The DNS client as the program runs it: cursors over a receive buffer, an out-parameter for the
 * address and one query counter shared by the whole recursion (lib/dns.c:152-436).
 */
module DnsClient {
  import opened Bytes
  import opened Socks
  import opened DnsNames
  import opened DnsCompression
  import opened DnsRecords
  import opened DnsResolve

  /** Every pointer in the name of a server or of an alias leads strictly backward. */
  ghost predicate NamesBackward(p: Packet, name: seq<byte>)
    requires GoodPacket(p) && Fits(name)
  {
    forall h :: (h in Answers(p, name).0 || h in Authority(p, name).0) && h + HEADER <= BUFFER_SIZE
                && (RecordType(p.buf, h) == T_NS || RecordType(p.buf, h) == T_CNAME) ==>
      Backward(p.buf, p.len, h + HEADER, NAME_SIZE)
  }

  /**
   * A resolution ends if, in the replies to the queries it makes, parsed for the names it asks, servers
   * and aliases are named with strictly backward pointers.
   */
  lemma BackwardEnds(net: seq<Attempt>, name: seq<byte>)
    requires GoodReplies(net) && Fits(name)
    requires var log := ResolveRoot(net, [], name).log;
      forall k :: 0 <= k < |log| && At(net, k).reply.Some? && Fits(log[k].name) ==> NamesBackward(At(net, k).reply.value, log[k].name)
    ensures !ResolveRoot(net, [], name).stuck
  {
    ResolutionSound(net, name);
    var log := ResolveRoot(net, [], name).log;
    if Circular(net, log) {
      var k: nat, h: nat :| CircularAt(net, log, k, h);
      var p := At(net, k).reply.value;
      assert NamesBackward(p, log[k].name);
      BackwardReturns(p.buf, p.len, h + HEADER, NAME_SIZE);
    }
  }

  /** The buffer holds the packet. */
  ghost predicate Received(buffer: array<byte>, p: Packet)
    reads buffer
  {
    GoodPacket(p) && buffer[..] == p.buf
  }

  // ---------------------------------------------------------------------------------------------
  // Cursors
  // ---------------------------------------------------------------------------------------------

  /** Of the records `all`, `i` have been passed; the cursor is at `ptr`, with up to `count - i` records to go before `end`. */
  ghost predicate Passed(p: Packet, all: seq<nat>, end: nat, ptr: nat, i: nat, count: nat) {
    GoodPacket(p) && ptr < BUFFER_SIZE && i <= |all| && i <= count && Section(p, ptr, count - i) == (all[i..], end)
  }

  /** Another record is passed, or there is none. */
  lemma PassOne(p: Packet, all: seq<nat>, end: nat, ptr: nat, i: nat, count: nat)
    requires Passed(p, all, end, ptr, i, count) && i < count
    ensures match Nearby(p.buf, ptr, p.len)
            case None => |all| == i
            case Some(h) =>
              && i < |all| && all[i] == h && Within(p, h)
              && Passed(p, all, end, After(p.buf, h), i + 1, count)
  {
    if Nearby(p.buf, ptr, p.len).Some? {
      var h := Nearby(p.buf, ptr, p.len).value;
      OneMoreRecord(p.buf, ptr, p.len, count - i, h);
      assert all[i..][1..] == all[i + 1..];
    }
  }

  /** The next record, or -1 when there is none. */
  method NextRecord(buffer: array<byte>, ptr: nat, len: nat, ghost p: Packet, ghost all: seq<nat>, ghost end: nat, ghost i: nat, ghost count: nat)
    returns (answer: int, next: nat)
    requires Received(buffer, p) && len == p.len && Passed(p, all, end, ptr, i, count) && i < count
    ensures if i < |all| then answer == all[i] && Within(p, all[i]) && Passed(p, all, end, next, i + 1, count) else answer == -1
  {
    PassOne(p, all, end, ptr, i, count);
    answer, next := DnsNearbyAnswer(buffer, ptr, len);
  }

  /** The ANSWER section is scanned up to its first address. */
  method FindAddress(buffer: array<byte>, start: nat, len: nat, count: nat, ghost p: Packet)
    returns (h: int, next: nat, complete: bool)
    requires Received(buffer, p) && len == p.len && start < BUFFER_SIZE
    ensures match FirstAddress(p, Section(p, start, count).0)
            case Some(a) => h == a
            case None =>
              && h == -1 && complete == (|Section(p, start, count).0| == count)
              && (complete ==> next == Section(p, start, count).1)
  {
    ghost var (all, end) := Section(p, start, count);
    next := start;
    StartPassing(p, all, end, start, count);
    for i := 0 to count
      invariant Unfound(p, all, end, next, i, count)
    {
      var answer, after := NextRecord(buffer, next, len, p, all, end, i, count);
      if answer < 0 {
        return -1, next, false;
      }
      NotYet(p, all, i);
      if Word(buffer[answer], buffer[answer + 1]) == T_A && Word(buffer[answer + 8], buffer[answer + 9]) == 4 {
        return answer, after, false;
      }
      next := after;
    }
    return -1, next, true;
  }

  /** The records passed have no address among them. */
  ghost predicate Unfound(p: Packet, all: seq<nat>, end: nat, ptr: nat, i: nat, count: nat) {
    Passed(p, all, end, ptr, i, count) && Inside(p, all) && FirstAddress(p, all) == FirstAddress(p, all[i..])
  }

  lemma StartPassing(p: Packet, all: seq<nat>, end: nat, start: nat, count: nat)
    requires GoodPacket(p) && start < BUFFER_SIZE && Section(p, start, count) == (all, end)
    ensures all[0..] == all && Passed(p, all, end, start, 0, count) && Inside(p, all)
  {
  }

  lemma NotYet(p: Packet, all: seq<nat>, i: nat)
    requires Inside(p, all) && i < |all|
    ensures FirstAddress(p, all[i..]) == if IsAddress(p, all[i]) then Some(all[i]) else FirstAddress(p, all[i + 1..])
  {
    assert all[i..][1..] == all[i + 1..];
  }

  method CopyAddress(buffer: array<byte>, answer: nat, addr: array<byte>, ghost p: Packet)
    requires Received(buffer, p) && answer + HEADER + 4 <= BUFFER_SIZE && addr.Length == 4 && addr != buffer
    modifies addr
    ensures addr[..] == AddressAt(p, answer)
  {
    forall i | 0 <= i < 4 {
      addr[i] := buffer[answer + HEADER + i];
    }
  }

  /** The AUTHORITY section is passed over. */
  method SkipSection(buffer: array<byte>, start: nat, len: nat, count: nat, ghost p: Packet) returns (next: nat, complete: bool)
    requires Received(buffer, p) && len == p.len && start < BUFFER_SIZE
    ensures complete == (|Section(p, start, count).0| == count) && (complete ==> next == Section(p, start, count).1)
  {
    ghost var (all, end) := Section(p, start, count);
    next := start;
    StartPassing(p, all, end, start, count);
    for i := 0 to count
      invariant Passed(p, all, end, next, i, count)
    {
      var answer, after := NextRecord(buffer, next, len, p, all, end, i, count);
      if answer < 0 {
        return next, false;
      }
      next := after;
    }
    complete := true;
  }

  /** The host name in a record's data is decompressed into `hostbuf`. */
  method ReadHost(buffer: array<byte>, answer: nat, len: nat, hostbuf: array<byte>, ghost p: Packet) returns (hostlen: int)
    requires Received(buffer, p) && len == p.len && answer + HEADER <= BUFFER_SIZE
    requires buffer != hostbuf && hostbuf.Length == NAME_SIZE
    requires Scan(p.buf, p.len, answer + HEADER, NAME_SIZE) != Loops
    modifies hostbuf
    ensures match HostAt(p, answer)
            case None => hostlen == -1
            case Some(host) => hostlen == |host| <= NAME_SIZE && hostbuf[..hostlen] == host
  {
    hostlen := DnsDecompressName(buffer, answer + HEADER, len, hostbuf);
  }

  lemma AdditionalAt(net: seq<Attempt>, log: seq<Asked>, name: seq<byte>, p: Packet, k: nat, hs: seq<nat>, i: nat)
    requires GoodReplies(net) && |log| <= QUERY_LIMIT && Fits(name) && Inside(p, hs) && i < |hs|
    ensures var r := OneAdditional(net, log, name, p, k, hs[i]);
      TryAdditional(net, log, name, p, k, hs[i..]) == if !Fruitless(r) then r else TryAdditional(net, r.log, name, p, k, hs[i + 1..])
  {
    assert hs[i..][0] == hs[i] && hs[i..][1..] == hs[i + 1..];
  }

  lemma ServersAt(net: seq<Attempt>, log: seq<Asked>, name: seq<byte>, p: Packet, k: nat, hs: seq<nat>, i: nat)
    requires GoodReplies(net) && |log| <= QUERY_LIMIT && Fits(name) && Inside(p, hs) && i < |hs|
    ensures var r := OneServer(net, log, name, p, k, hs[i]);
      TryServers(net, log, name, p, k, hs[i..]) == if !Fruitless(r) then r else TryServers(net, r.log, name, p, k, hs[i + 1..])
  {
    assert hs[i..][0] == hs[i] && hs[i..][1..] == hs[i + 1..];
  }

  lemma AliasesAt(net: seq<Attempt>, log: seq<Asked>, p: Packet, k: nat, hs: seq<nat>, i: nat)
    requires GoodReplies(net) && |log| <= QUERY_LIMIT && Inside(p, hs) && i < |hs|
    ensures var r := OneAlias(net, log, p, k, hs[i]);
      TryAliases(net, log, p, k, hs[i..]) == if !Fruitless(r) then r else TryAliases(net, r.log, p, k, hs[i + 1..])
  {
    assert hs[i..][0] == hs[i] && hs[i..][1..] == hs[i + 1..];
  }

  // ---------------------------------------------------------------------------------------------
  // The resolver
  // ---------------------------------------------------------------------------------------------

  /** What a call reports and what it leaves in the out-parameter, given the outcome `r`. */
  predicate Reports(r: Answer, ok: bool, before: seq<byte>, after: seq<byte>) {
    && ok == r.found.Some?
    && after == if r.found.Some? then Address(r.found.value) else before
  }

  /** One resolution: its counter, and the queries counted. */
  class Resolver {
    var querycnt: nat
    ghost var log: seq<Asked>

    ghost predicate Valid()
      reads this
    {
      querycnt == |log| <= QUERY_LIMIT
    }

    constructor ()
      ensures Valid() && log == []
    {
      querycnt := 0;
      log := [];
    }

    /** dns_recursive_query. */
    method DnsRecursiveQuery(net: seq<Attempt>, name: seq<byte>, server: seq<byte>, addr: array<byte>) returns (ok: bool)
      requires Valid() && GoodReplies(net) && Fits(name) && addr.Length == 4
      requires !Query(net, log, name, server).stuck
      modifies this, addr
      ensures Valid() && log == Query(net, old(log), name, server).log
      ensures Reports(Query(net, old(log), name, server), ok, old(addr[..]), addr[..])
      decreases QUERY_LIMIT - |log|, 0
    {
      if querycnt >= QUERY_LIMIT {
        return false;
      }
      ghost var k := |log|;
      var attempt := At(net, querycnt);
      querycnt := querycnt + 1;
      log := log + [Asked(server, name)];
      if attempt.reply.None? {
        return false;
      }
      var octets := attempt.reply.value.buf;
      var buffer := new byte[BUFFER_SIZE](i requires 0 <= i < |octets| => octets[i]);
      assert buffer[..] == attempt.reply.value.buf;
      ok := ExamineReply(net, name, buffer, attempt.reply.value.len, attempt.reply.value, k, addr);
    }

    /** The rest of dns_recursive_query, once a reply is in the buffer. */
    method ExamineReply(net: seq<Attempt>, name: seq<byte>, buffer: array<byte>, len: nat, ghost p: Packet, ghost k: nat, addr: array<byte>)
      returns (ok: bool)
      requires Valid() && GoodReplies(net) && Fits(name) && addr.Length == 4 && addr != buffer
      requires Received(buffer, p) && len == p.len && At(net, k).reply == Some(p)
      requires !Examine(net, log, name, p, k).stuck
      modifies this, addr
      ensures Valid() && log == Examine(net, old(log), name, p, k).log
      ensures Reports(Examine(net, old(log), name, p, k), ok, old(addr[..]), addr[..])
      decreases QUERY_LIMIT - |log|, 3
    {
      var ansCount := Word(buffer[6], buffer[7]);
      var authCount := Word(buffer[8], buffer[9]);
      var addCount := Word(buffer[10], buffer[11]);
      var start := Start(name);
      var h, ptrbackup, complete := FindAddress(buffer, start, len, ansCount, p);
      if h >= 0 {
        CopyAddress(buffer, h, addr, p);
        return true;
      }
      if !complete {
        return false;
      }
      var ptr, skipped := SkipSection(buffer, ptrbackup, len, authCount, p);
      if !skipped {
        return false;
      }
      ok := AskAdditional(net, name, buffer, ptr, len, addCount, p, k, addr);
      if ok {
        return true;
      }
      ok := AskServers(net, name, buffer, ptrbackup, len, authCount, p, k, addr);
      if ok {
        return true;
      }
      ok := AskAliases(net, buffer, start, len, ansCount, p, k, addr);
    }

    /** Look-up through the addresses of the ADDITIONAL section. */
    method AskAdditional(net: seq<Attempt>, name: seq<byte>, buffer: array<byte>, start: nat, len: nat, count: nat, ghost p: Packet, ghost k: nat, addr: array<byte>)
      returns (ok: bool)
      requires Valid() && GoodReplies(net) && Fits(name) && addr.Length == 4 && addr != buffer
      requires Received(buffer, p) && len == p.len && start < BUFFER_SIZE
      requires !TryAdditional(net, log, name, p, k, Section(p, start, count).0).stuck
      modifies this, addr
      ensures Valid() && log == TryAdditional(net, old(log), name, p, k, Section(p, start, count).0).log
      ensures Reports(TryAdditional(net, old(log), name, p, k, Section(p, start, count).0), ok, old(addr[..]), addr[..])
      decreases QUERY_LIMIT - |log|, 2, 1
    {
      ghost var (hs, end) := Section(p, start, count);
      var ptr: nat := start;
      StartPassing(p, hs, end, start, count);
      for i := 0 to count
        invariant Valid() && |old(log)| <= |log| && addr[..] == old(addr[..]) && Passed(p, hs, end, ptr, i, count)
        invariant TryAdditional(net, old(log), name, p, k, hs) == TryAdditional(net, log, name, p, k, hs[i..])
      {
        var answer, after := NextRecord(buffer, ptr, len, p, hs, end, i, count);
        if answer < 0 {
          assert hs[i..] == [];
          break;
        }
        AdditionalAt(net, log, name, p, k, hs, i);
        ok := AskAddress(net, name, buffer, answer, p, k, addr);
        if ok {
          return true;
        }
        ptr := after;
      }
      return false;
    }

    /** One record of the ADDITIONAL section: an address there is asked for the same name. */
    method AskAddress(net: seq<Attempt>, name: seq<byte>, buffer: array<byte>, answer: nat, ghost p: Packet, ghost k: nat, addr: array<byte>)
      returns (ok: bool)
      requires Valid() && GoodReplies(net) && Fits(name) && addr.Length == 4 && addr != buffer
      requires Received(buffer, p) && Within(p, answer)
      requires !OneAdditional(net, log, name, p, k, answer).stuck
      modifies this, addr
      ensures Valid() && log == OneAdditional(net, old(log), name, p, k, answer).log
      ensures Reports(OneAdditional(net, old(log), name, p, k, answer), ok, old(addr[..]), addr[..])
      decreases QUERY_LIMIT - |log|, 2, 0
    {
      if Word(buffer[answer], buffer[answer + 1]) != T_A || Word(buffer[answer + 8], buffer[answer + 9]) != 4 {
        return false;
      }
      ok := DnsRecursiveQuery(net, name, buffer[answer + HEADER..answer + HEADER + 4], addr);
    }

    /** Look-up through the name servers of the AUTHORITY section, which is known to be whole. */
    method AskServers(net: seq<Attempt>, name: seq<byte>, buffer: array<byte>, start: nat, len: nat, count: nat, ghost p: Packet, ghost k: nat, addr: array<byte>)
      returns (ok: bool)
      requires Valid() && GoodReplies(net) && Fits(name) && addr.Length == 4 && addr != buffer
      requires Received(buffer, p) && len == p.len && start < BUFFER_SIZE
      requires |Section(p, start, count).0| == count
      requires !TryServers(net, log, name, p, k, Section(p, start, count).0).stuck
      modifies this, addr
      ensures Valid() && log == TryServers(net, old(log), name, p, k, Section(p, start, count).0).log
      ensures Reports(TryServers(net, old(log), name, p, k, Section(p, start, count).0), ok, old(addr[..]), addr[..])
      decreases QUERY_LIMIT - |log|, 2, 1
    {
      ghost var (hs, end) := Section(p, start, count);
      var ptr: nat := start;
      StartPassing(p, hs, end, start, count);
      for i := 0 to count
        invariant Valid() && |old(log)| <= |log| && addr[..] == old(addr[..]) && Passed(p, hs, end, ptr, i, count)
        invariant TryServers(net, old(log), name, p, k, hs) == TryServers(net, log, name, p, k, hs[i..])
      {
        var answer, after := NextRecord(buffer, ptr, len, p, hs, end, i, count);
        if answer < 0 {
          assert false;
        }
        ServersAt(net, log, name, p, k, hs, i);
        ok := AskServer(net, name, buffer, answer, len, p, k, addr);
        if ok {
          return true;
        }
        ptr := after;
      }
      return false;
    }

    /** One record of the AUTHORITY section: a name server is resolved, and asked for the name. */
    method AskServer(net: seq<Attempt>, name: seq<byte>, buffer: array<byte>, answer: nat, len: nat, ghost p: Packet, ghost k: nat, addr: array<byte>)
      returns (ok: bool)
      requires Valid() && GoodReplies(net) && Fits(name) && addr.Length == 4 && addr != buffer
      requires Received(buffer, p) && len == p.len && Within(p, answer)
      requires !OneServer(net, log, name, p, k, answer).stuck
      modifies this, addr
      ensures Valid() && log == OneServer(net, old(log), name, p, k, answer).log
      ensures Reports(OneServer(net, old(log), name, p, k, answer), ok, old(addr[..]), addr[..])
      decreases QUERY_LIMIT - |log|, 2, 0
    {
      if Word(buffer[answer], buffer[answer + 1]) != T_NS {
        return false;
      }
      var hostbuf := new byte[NAME_SIZE];
      var hostlen := ReadHost(buffer, answer, len, hostbuf, p);
      if hostlen < 0 {
        return false;
      }
      var nsAddr := new byte[4];
      var known := DnsResolveRoot(net, hostbuf[..hostlen], nsAddr);
      if !known {
        return false;
      }
      ok := DnsRecursiveQuery(net, name, nsAddr[..], addr);
    }

    /** Look-up through the aliases of the ANSWER section, which is known to be whole. */
    method AskAliases(net: seq<Attempt>, buffer: array<byte>, start: nat, len: nat, count: nat, ghost p: Packet, ghost k: nat, addr: array<byte>)
      returns (ok: bool)
      requires Valid() && GoodReplies(net) && addr.Length == 4 && addr != buffer
      requires Received(buffer, p) && len == p.len && start < BUFFER_SIZE
      requires |Section(p, start, count).0| == count
      requires !TryAliases(net, log, p, k, Section(p, start, count).0).stuck
      modifies this, addr
      ensures Valid() && log == TryAliases(net, old(log), p, k, Section(p, start, count).0).log
      ensures Reports(TryAliases(net, old(log), p, k, Section(p, start, count).0), ok, old(addr[..]), addr[..])
      decreases QUERY_LIMIT - |log|, 2, 1
    {
      ghost var (hs, end) := Section(p, start, count);
      var ptr: nat := start;
      StartPassing(p, hs, end, start, count);
      for i := 0 to count
        invariant Valid() && |old(log)| <= |log| && addr[..] == old(addr[..]) && Passed(p, hs, end, ptr, i, count)
        invariant TryAliases(net, old(log), p, k, hs) == TryAliases(net, log, p, k, hs[i..])
      {
        var answer, after := NextRecord(buffer, ptr, len, p, hs, end, i, count);
        if answer < 0 {
          assert false;
        }
        AliasesAt(net, log, p, k, hs, i);
        ok := AskAlias(net, buffer, answer, len, p, k, addr);
        if ok {
          return true;
        }
        ptr := after;
      }
      return false;
    }

    /** One record of the ANSWER section: the name an alias stands for is resolved instead. */
    method AskAlias(net: seq<Attempt>, buffer: array<byte>, answer: nat, len: nat, ghost p: Packet, ghost k: nat, addr: array<byte>)
      returns (ok: bool)
      requires Valid() && GoodReplies(net) && addr.Length == 4 && addr != buffer
      requires Received(buffer, p) && len == p.len && Within(p, answer)
      requires !OneAlias(net, log, p, k, answer).stuck
      modifies this, addr
      ensures Valid() && log == OneAlias(net, old(log), p, k, answer).log
      ensures Reports(OneAlias(net, old(log), p, k, answer), ok, old(addr[..]), addr[..])
      decreases QUERY_LIMIT - |log|, 2, 0
    {
      if Word(buffer[answer], buffer[answer + 1]) != T_CNAME {
        return false;
      }
      var hostbuf := new byte[NAME_SIZE];
      var hostlen := ReadHost(buffer, answer, len, hostbuf, p);
      if hostlen < 0 {
        return false;
      }
      ok := DnsResolveRoot(net, hostbuf[..hostlen], addr);
    }

    /** dns_resolve_root. */
    method DnsResolveRoot(net: seq<Attempt>, name: seq<byte>, addr: array<byte>) returns (ok: bool)
      requires Valid() && GoodReplies(net) && Fits(name) && addr.Length == 4
      requires !ResolveRoot(net, log, name).stuck
      modifies this, addr
      ensures Valid() && log == ResolveRoot(net, old(log), name).log
      ensures Reports(ResolveRoot(net, old(log), name), ok, old(addr[..]), addr[..])
      decreases QUERY_LIMIT - |log|, 1
    {
      var root := ROOTS[At(net, querycnt).tick % |ROOTS|];
      ok := DnsRecursiveQuery(net, name, root, addr);
    }
  }

  // ---------------------------------------------------------------------------------------------
  // The length of the encoded name
  // ---------------------------------------------------------------------------------------------

  /**
   * The octets nsaddr takes for the wire form of `h`: two more than the name has characters, the rest
   * being what was in memory before.
   */
  function Taken(h: seq<byte>, memory: seq<byte>): (name: seq<byte>)
    requires Encodes(h, NAME_SIZE) && |memory| == NAME_SIZE + 1
    ensures |name| == |h| + 2 && Wire(Labels(h)) <= name && Fits(name)
    ensures name == Wire(Labels(h)) <==> h != [] && !EndsWithDot(h)
  {
    WireLength(h);
    var w := Wire(Labels(h));
    (w + memory[|w|..])[..|h| + 2]
  }

  /** That runs past the end of the buffer exactly for names of 255 characters with a dot at their end. */
  lemma OverreadExactlyWhen(h: seq<byte>)
    requires Encodes(h, NAME_SIZE)
    ensures |h| + 2 > NAME_SIZE <==> |h| == NAME_SIZE - 1 && EndsWithDot(h)
  {
    WireLength(h);
  }

  /** A host name of a well-formed request for which it does. */
  lemma OverreadHappens() returns (h: seq<byte>)
    ensures WellFormed(Host(h, 80)) && 0 !in h && Encodes(h, NAME_SIZE) && |h| + 2 > NAME_SIZE
  {
    var text: seq<byte> := seq(NAME_SIZE - 2, _ => 97);
    h := text + [DOT];
    FirstDotAfter(text, h);
    FirstLabel(h);
    assert h[..|text|] == text && h[|text| + 1..] == [];
    assert Labels(h) == [text];
    WireLength(h);
  }

  lemma {:induction false} FirstDotAfter(text: seq<byte>, h: seq<byte>)
    requires h == text + [DOT] && forall i :: 0 <= i < |text| ==> text[i] != DOT
    ensures FirstDot(h) == |text|
    decreases |text|
  {
    if text != [] {
      assert h[0] == text[0] && h[1..] == text[1..] + [DOT];
      FirstDotAfter(text[1..], h[1..]);
    }
  }

  /** The address of a host name: none when it cannot be encoded, else what a root server leads to. */
  function Resolution(net: seq<Attempt>, h: seq<byte>, memory: seq<byte>): Option<seq<byte>>
    requires GoodReplies(net) && |memory| == NAME_SIZE + 1
  {
    if !Encodes(h, NAME_SIZE) then None
    else
      match ResolveRoot(net, [], Taken(h, memory)).found
      case None => None
      case Some(d) => Some(Address(d))
  }

  /** The resolution makes no decompression that never returns. */
  predicate Ends(net: seq<Attempt>, h: seq<byte>, memory: seq<byte>)
    requires GoodReplies(net) && |memory| == NAME_SIZE + 1
  {
    Encodes(h, NAME_SIZE) ==> !ResolveRoot(net, [], Taken(h, memory)).stuck
  }

  /**
   * nsaddr; `memory` is what the buffer for the wire form, and the octet after it, hold on entry.  It
   * fails without a query when the name cannot be encoded.  If it reports an address, that is the data
   * of an address record in the ANSWER section of one of at most 48 replies; if not, the
   * out-parameter is left alone.
   */
  method Nsaddr(net: seq<Attempt>, hostname: seq<byte>, memory: seq<byte>, addr: array<byte>) returns (ok: bool, ghost log: seq<Asked>)
    requires GoodReplies(net) && addr.Length == 4 && |memory| == NAME_SIZE + 1 && Ends(net, hostname, memory)
    modifies addr
    ensures ok == Resolution(net, hostname, memory).Some?
    ensures addr[..] == if ok then Resolution(net, hostname, memory).value else old(addr[..])
    ensures log == if Encodes(hostname, NAME_SIZE) then ResolveRoot(net, [], Taken(hostname, memory)).log else []
    ensures |log| <= 48 && (ok ==> IsAnswered(net, log, addr[..]))
  {
    var encoded := new byte[NAME_SIZE](i requires 0 <= i < |memory| => memory[i]);
    assert encoded[..] == memory[..NAME_SIZE];
    ghost var len;
    ok, len := DnsEncodeHostname(hostname, encoded);
    log := [];
    if !ok {
      return;
    }
    ghost var taken := Taken(hostname, memory);
    WireLength(hostname);
    SeenIs(encoded[..], memory, len);
    var name := (encoded[..] + [memory[NAME_SIZE]])[..|hostname| + 2];
    assert name == Taken(hostname, memory);
    var resolver := new Resolver();
    ok := resolver.DnsResolveRoot(net, name, addr);
    log := resolver.log;
    ResolutionSound(net, name);
  }

  lemma SeenIs(encoded: seq<byte>, memory: seq<byte>, len: nat)
    requires |encoded| == NAME_SIZE && |memory| == NAME_SIZE + 1 && len <= NAME_SIZE
    requires encoded[len..] == memory[..NAME_SIZE][len..]
    ensures encoded + [memory[NAME_SIZE]] == encoded[..len] + memory[len..]
  {
    assert encoded == encoded[..len] + encoded[len..];
    assert memory[len..] == memory[..NAME_SIZE][len..] + [memory[NAME_SIZE]];
  }
}
