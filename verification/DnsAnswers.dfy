/**
 * When a resolution succeeds, and with what (lib/dns.c:152-420).  Each reply leaves a list of things to try,
 * told from its octets; the query that got it comes to what the first of them comes to that does not fail.
 */
module DnsAnswers {
  import opened Bytes
  import opened DnsNames
  import opened DnsCompression
  import opened DnsRecords
  import opened DnsResolve
  import opened DnsClient

  // ---------------------------------------------------------------------------------------------
  // Laid-out sections
  // ---------------------------------------------------------------------------------------------

  /** The records stand at `at`, and the walker finds them one after the other. */
  ghost predicate Found(buf: seq<byte>, at: nat, rs: seq<Record>, limit: nat) {
    && limit < |buf| && Leads(buf, limit, at, HeaderOffsets(rs, at), at + |AllBytes(rs)|)
    && forall k :: 0 <= k < |rs| ==> IsHeaderOf(buf, HeaderOffsets(rs, at)[k], rs[k])
  }

  lemma LeadsCons(buf: seq<byte>, limit: nat, at: nat, h: nat, hs: seq<nat>, end: nat)
    requires at < |buf| && limit < |buf| && Nearby(buf, at, limit) == Some(h) && h + HEADER <= |buf|
    requires Leads(buf, limit, After(buf, h), hs, end)
    ensures Leads(buf, limit, at, [h] + hs, end)
  {
    assert ([h] + hs)[1..] == hs;
  }

  lemma AllBytesLength(rs: seq<Record>)
    requires rs != []
    ensures |AllBytes(rs)| == |RecordBytes(rs[0])| + |AllBytes(rs[1..])|
  {
  }

  lemma LeadsMore(buf: seq<byte>, at: nat, rs: seq<Record>, limit: nat)
    requires rs != [] && Holds(buf, at, RecordBytes(rs[0])) && at + |RecordBytes(rs[0])| <= limit < |buf|
    requires var next := at + |RecordBytes(rs[0])|;
      Leads(buf, limit, next, HeaderOffsets(rs[1..], next), next + |AllBytes(rs[1..])|)
    ensures Leads(buf, limit, at, HeaderOffsets(rs, at), at + |AllBytes(rs)|) && IsHeaderOf(buf, HeaderOffsets(rs, at)[0], rs[0])
  {
    var next := at + |RecordBytes(rs[0])|;
    var h := at + |NameBytes(rs[0])|;
    RecordFound(buf, at, rs[0], limit);
    LeadsCons(buf, limit, at, h, HeaderOffsets(rs[1..], next), next + |AllBytes(rs[1..])|);
    OffsetsHead(rs, at);
    AllBytesLength(rs);
  }

  lemma FoundMore(buf: seq<byte>, at: nat, rs: seq<Record>, limit: nat)
    requires rs != [] && Holds(buf, at, RecordBytes(rs[0])) && at + |RecordBytes(rs[0])| <= limit < |buf|
    requires Found(buf, at + |RecordBytes(rs[0])|, rs[1..], limit)
    ensures Found(buf, at, rs, limit)
  {
    LeadsMore(buf, at, rs, limit);
    OffsetsHead(rs, at);
    var hs, tail := HeaderOffsets(rs[1..], at + |RecordBytes(rs[0])|), rs[1..];
    forall k | 0 <= k < |rs|
      ensures IsHeaderOf(buf, HeaderOffsets(rs, at)[k], rs[k])
    {
      if k > 0 {
        assert HeaderOffsets(rs, at)[k] == hs[k - 1] && rs[k] == tail[k - 1];
      }
    }
  }

  /** Records that stand somewhere before the end of the packet are found. */
  lemma {:induction false} SectionLeads(buf: seq<byte>, at: nat, rs: seq<Record>, limit: nat)
    requires Holds(buf, at, AllBytes(rs)) && at + |AllBytes(rs)| <= limit < |buf|
    ensures Found(buf, at, rs, limit)
    decreases |rs|
  {
    if rs != [] {
      assert AllBytes(rs) == RecordBytes(rs[0]) + AllBytes(rs[1..]);
      HoldsParts(buf, at, RecordBytes(rs[0]), AllBytes(rs[1..]));
      SectionLeads(buf, at + |RecordBytes(rs[0])|, rs[1..], limit);
      FoundMore(buf, at, rs, limit);
    }
  }

  /** The headers `hs` are those of the records `rs`. */
  ghost predicate HeadersOf(p: Packet, hs: seq<nat>, rs: seq<Record>) {
    Inside(p, hs) && |hs| == |rs| && forall k :: 0 <= k < |rs| ==> IsHeaderOf(p.buf, hs[k], rs[k])
  }

  /** `rs` is all there is in the section that begins at `at`, if that is its count. */
  lemma SectionFound(p: Packet, at: nat, n: nat, rs: seq<Record>)
    requires GoodPacket(p) && n == |rs| && Holds(p.buf, at, AllBytes(rs)) && at + |AllBytes(rs)| <= p.len
    ensures at < BUFFER_SIZE && Section(p, at, n).1 == at + |AllBytes(rs)| && HeadersOf(p, Section(p, at, n).0, rs)
  {
    SectionLeads(p.buf, at, rs, p.len);
    LeadsRecords(p.buf, p.len, at, HeaderOffsets(rs, at), at + |AllBytes(rs)|);
  }

  /** The reply answers the question for `name` with these records in its ANSWER section. */
  ghost predicate AnswersWith(p: Packet, name: seq<byte>, rs: seq<Record>) {
    && GoodPacket(p) && |name| < 65000 && |rs| < 0x10000 && p.buf[6] == |rs| / 256 && p.buf[7] == |rs| % 256
    && Holds(p.buf, 16 + |name|, AllBytes(rs)) && 16 + |name| + |AllBytes(rs)| <= p.len
  }

  lemma AnswersFound(p: Packet, name: seq<byte>, rs: seq<Record>)
    requires AnswersWith(p, name, rs)
    ensures Fits(name) && Count(p, 6) == |rs|
    ensures HeadersOf(p, Answers(p, name).0, rs) && Answers(p, name).1 == 16 + |name| + |AllBytes(rs)|
  {
    WordIs(p.buf[6], p.buf[7], |rs|);
    SectionFound(p, Start(name), Count(p, 6), rs);
  }

  /** And with these in its AUTHORITY and ADDITIONAL sections. */
  ghost predicate AlsoHolds(p: Packet, name: seq<byte>, rs: seq<Record>, ns: seq<Record>, more: seq<Record>) {
    && AnswersWith(p, name, rs) && |ns| < 0x10000 && |more| < 0x10000
    && p.buf[8] == |ns| / 256 && p.buf[9] == |ns| % 256 && p.buf[10] == |more| / 256 && p.buf[11] == |more| % 256
    && var at := 16 + |name| + |AllBytes(rs)|;
       && Holds(p.buf, at, AllBytes(ns)) && Holds(p.buf, at + |AllBytes(ns)|, AllBytes(more))
       && at + |AllBytes(ns)| + |AllBytes(more)| <= p.len
  }

  lemma WordIs(hi: byte, lo: byte, n: nat)
    requires n < 0x10000 && hi == n / 256 && lo == n % 256
    ensures Word(hi, lo) == n
  {
  }

  lemma CountsFound(p: Packet, name: seq<byte>, rs: seq<Record>, ns: seq<Record>, more: seq<Record>)
    requires AlsoHolds(p, name, rs, ns, more)
    ensures Count(p, 6) == |rs| && Count(p, 8) == |ns| && Count(p, 10) == |more|
  {
    WordIs(p.buf[6], p.buf[7], |rs|);
    WordIs(p.buf[8], p.buf[9], |ns|);
    WordIs(p.buf[10], p.buf[11], |more|);
  }

  lemma AuthorityFound(p: Packet, name: seq<byte>, rs: seq<Record>, ns: seq<Record>, more: seq<Record>)
    requires AlsoHolds(p, name, rs, ns, more)
    ensures Fits(name) && HeadersOf(p, Authority(p, name).0, ns)
    ensures Authority(p, name).1 == 16 + |name| + |AllBytes(rs)| + |AllBytes(ns)|
  {
    AnswersFound(p, name, rs);
    CountsFound(p, name, rs, ns, more);
    SectionFound(p, Answers(p, name).1, Count(p, 8), ns);
  }

  lemma AdditionalFound(p: Packet, name: seq<byte>, rs: seq<Record>, ns: seq<Record>, more: seq<Record>)
    requires AlsoHolds(p, name, rs, ns, more)
    ensures Fits(name) && HeadersOf(p, Additional(p, name).0, more)
  {
    AuthorityFound(p, name, rs, ns, more);
    CountsFound(p, name, rs, ns, more);
    SectionFound(p, Authority(p, name).1, Count(p, 10), more);
  }

  // ---------------------------------------------------------------------------------------------
  // Answers
  // ---------------------------------------------------------------------------------------------

  /** A record with an address: type 1 and four octets of data. */
  predicate IsA(r: Record) {
    r.typ == 1 && |r.data| == 4
  }

  /** The `k`-th record is the first with an address. */
  predicate FirstA(rs: seq<Record>, k: nat) {
    k < |rs| && IsA(rs[k]) && forall j :: 0 <= j < k ==> !IsA(rs[j])
  }

  lemma RecordIsA(p: Packet, h: nat, r: Record)
    requires Within(p, h) && IsHeaderOf(p.buf, h, r)
    ensures IsAddress(p, h) <==> IsA(r)
    ensures IsA(r) ==> h + HEADER + 4 <= BUFFER_SIZE && AddressAt(p, h) == r.data && HoldsAddress(p, h, r.data)
  {
    if IsA(r) {
      assert p.buf[h + HEADER..h + HEADER + 4] == r.data;
    }
  }

  lemma {:induction false} FirstAddressIs(p: Packet, hs: seq<nat>, rs: seq<Record>, k: nat)
    requires HeadersOf(p, hs, rs) && FirstA(rs, k)
    ensures FirstAddress(p, hs) == Some(hs[k])
    decreases k
  {
    RecordIsA(p, hs[0], rs[0]);
    if k > 0 {
      assert forall j :: 0 <= j < |rs| - 1 ==> hs[1..][j] == hs[j + 1] && rs[1..][j] == rs[j + 1];
      FirstAddressIs(p, hs[1..], rs[1..], k - 1);
    }
  }

  lemma {:induction false} NoAddress(p: Packet, hs: seq<nat>, rs: seq<Record>)
    requires HeadersOf(p, hs, rs) && forall j :: 0 <= j < |rs| ==> !IsA(rs[j])
    ensures FirstAddress(p, hs) == None
    decreases |hs|
  {
    if hs != [] {
      RecordIsA(p, hs[0], rs[0]);
      assert forall j :: 0 <= j < |rs| - 1 ==> hs[1..][j] == hs[j + 1] && rs[1..][j] == rs[j + 1];
      NoAddress(p, hs[1..], rs[1..]);
    }
  }

  /**
   * A query whose reply has an address in its ANSWER section finds it: the four octets of data of the
   * first such record, whatever else the reply holds; and it was the only query made.
   */
  lemma AnswerIsData(net: seq<Attempt>, log: seq<Asked>, name: seq<byte>, server: seq<byte>, p: Packet, rs: seq<Record>, k: nat)
    requires GoodReplies(net) && |log| < 48 && At(net, |log|).reply == Some(p)
    requires AnswersWith(p, name, rs) && FirstA(rs, k)
    ensures Fits(name)
    ensures var r := Query(net, log, name, server);
      r.found.Some? && Address(r.found.value) == rs[k].data && r.log == log + [Asked(server, name)] && !r.stuck
  {
    AnswersFound(p, name, rs);
    var hs := Answers(p, name).0;
    FirstAddressIs(p, hs, rs, k);
    RecordIsA(p, hs[k], rs[k]);
  }

  /** After 48 queries none is made any more. */
  lemma QueriesRunOut(net: seq<Attempt>, log: seq<Asked>, name: seq<byte>, server: seq<byte>)
    requires GoodReplies(net) && Fits(name) && |log| == 48
    ensures Query(net, log, name, server) == Answer(None, log, false)
  {
  }

  /** A query without a reply counts, and fails. */
  lemma UnansweredQuery(net: seq<Attempt>, log: seq<Asked>, name: seq<byte>, server: seq<byte>)
    requires GoodReplies(net) && Fits(name) && |log| < 48 && At(net, |log|).reply == None
    ensures Query(net, log, name, server) == Answer(None, log + [Asked(server, name)], false)
  {
  }

  /** The server every resolution begins at: the first public one on even clock readings, else the second. */
  lemma RootPicked(net: seq<Attempt>, k: nat)
    ensures RootFor(net, k) == if At(net, k).tick % 2 == 0 then [8, 8, 8, 8] else [8, 8, 4, 4]
  {
  }

  // ---------------------------------------------------------------------------------------------
  // What there is to try
  // ---------------------------------------------------------------------------------------------

  /**
   * Something to try: another server for the same name, a server that has a name itself, another name
   * instead; or a name that does not fit, and one that is a circle of pointers.
   */
  datatype Task = AskAt(server: seq<byte>) | AskVia(host: seq<byte>) | AskFor(host: seq<byte>) | NoName | Circle

  /** What trying it comes to: an address if any, the queries made by then, and whether it never ends. */
  datatype Attempted = Attempted(addr: Option<seq<byte>>, log: seq<Asked>, stuck: bool)

  function Outcome(r: Answer): Attempted {
    Attempted(if r.found.Some? then Some(Address(r.found.value)) else None, r.log, r.stuck)
  }

  /** A host name that can be asked for. */
  predicate Askable(task: Task) {
    match task
    case AskVia(host) => Fits(host)
    case AskFor(host) => Fits(host)
    case _ => true
  }

  function Try(net: seq<Attempt>, log: seq<Asked>, name: seq<byte>, task: Task): (r: Attempted)
    requires GoodReplies(net) && |log| <= 48 && Fits(name) && Askable(task)
    ensures |r.log| <= 48
  {
    match task
    case AskAt(server) => Outcome(Query(net, log, name, server))
    case AskVia(host) =>
      var r := Query(net, log, host, RootFor(net, |log|));
      if r.found.Some? then Outcome(Query(net, r.log, name, Address(r.found.value))) else Outcome(r)
    case AskFor(host) => Outcome(Query(net, log, host, RootFor(net, |log|)))
    case NoName => Attempted(None, log, false)
    case Circle => Attempted(None, log, true)
  }

  /** One thing after the other, until one succeeds or never ends. */
  function TryAll(net: seq<Attempt>, log: seq<Asked>, name: seq<byte>, tasks: seq<Task>): (r: Attempted)
    requires GoodReplies(net) && |log| <= 48 && Fits(name) && forall k :: 0 <= k < |tasks| ==> Askable(tasks[k])
    ensures |r.log| <= 48
    decreases |tasks|
  {
    if tasks == [] then Attempted(None, log, false)
    else
      var r := Try(net, log, name, tasks[0]);
      if r.addr.Some? || r.stuck then r else TryAll(net, r.log, name, tasks[1..])
  }

  /** An address in the ADDITIONAL section is a server to ask. */
  function FromAdditional(p: Packet, h: nat): seq<Task>
    requires h + 10 <= |p.buf|
  {
    if p.buf[h] == 0 && p.buf[h + 1] == 1 && p.buf[h + 8] == 0 && p.buf[h + 9] == 4 && h + 14 <= |p.buf| then [AskAt(p.buf[h + 10..h + 14])] else []
  }

  /** The name in a record's data, as far as it can be told. */
  function NamedBy(p: Packet, h: nat, via: bool): Task
    requires p.len <= |p.buf|
  {
    match Scan(p.buf, p.len, h + 10, 256)
    case Wrote(host) => if via then AskVia(host) else AskFor(host)
    case Full => NoName
    case Loops => Circle
  }

  /** A record of type 2 in the AUTHORITY section names a server. */
  function FromAuthority(p: Packet, h: nat): seq<Task>
    requires h + 10 <= |p.buf| && p.len <= |p.buf|
  {
    if p.buf[h] == 0 && p.buf[h + 1] == 2 then [NamedBy(p, h, true)] else []
  }

  /** A record of type 5 in the ANSWER section names an alias. */
  function FromAnswer(p: Packet, h: nat): seq<Task>
    requires h + 10 <= |p.buf| && p.len <= |p.buf|
  {
    if p.buf[h] == 0 && p.buf[h + 1] == 5 then [NamedBy(p, h, false)] else []
  }

  predicate AllWithin(p: Packet, hs: seq<nat>) {
    p.len <= |p.buf| && forall k :: 0 <= k < |hs| ==> hs[k] + 10 <= |p.buf|
  }

  function AdditionalTasks(p: Packet, hs: seq<nat>): (tasks: seq<Task>)
    requires AllWithin(p, hs)
    ensures forall k :: 0 <= k < |tasks| ==> Askable(tasks[k])
  {
    if hs == [] then [] else FromAdditional(p, hs[0]) + AdditionalTasks(p, hs[1..])
  }

  function AuthorityTasks(p: Packet, hs: seq<nat>): (tasks: seq<Task>)
    requires AllWithin(p, hs)
    ensures forall k :: 0 <= k < |tasks| ==> Askable(tasks[k])
  {
    if hs == [] then [] else FromAuthority(p, hs[0]) + AuthorityTasks(p, hs[1..])
  }

  function AnswerTasks(p: Packet, hs: seq<nat>): (tasks: seq<Task>)
    requires AllWithin(p, hs)
    ensures forall k :: 0 <= k < |tasks| ==> Askable(tasks[k])
  {
    if hs == [] then [] else FromAnswer(p, hs[0]) + AnswerTasks(p, hs[1..])
  }

  /** Servers with addresses first, then servers with names, then aliases, each in the order of the reply. */
  function Plan(p: Packet, name: seq<byte>): (tasks: seq<Task>)
    requires GoodPacket(p) && Fits(name)
    ensures forall k :: 0 <= k < |tasks| ==> Askable(tasks[k])
  {
    AdditionalTasks(p, Additional(p, name).0) + AuthorityTasks(p, Authority(p, name).0) + AnswerTasks(p, Answers(p, name).0)
  }

  // ---------------------------------------------------------------------------------------------
  // The search follows the plan
  // ---------------------------------------------------------------------------------------------

  lemma {:induction false} TryTwo(net: seq<Attempt>, log: seq<Asked>, name: seq<byte>, a: seq<Task>, b: seq<Task>)
    requires GoodReplies(net) && |log| <= 48 && Fits(name)
    requires (forall k :: 0 <= k < |a| ==> Askable(a[k])) && forall k :: 0 <= k < |b| ==> Askable(b[k])
    ensures var r := TryAll(net, log, name, a);
      TryAll(net, log, name, a + b) == if r.addr.Some? || r.stuck then r else TryAll(net, r.log, name, b)
    decreases |a|
  {
    if a == [] {
      assert a + b == b;
    } else {
      assert (a + b)[1..] == a[1..] + b;
      var r := Try(net, log, name, a[0]);
      if !(r.addr.Some? || r.stuck) {
        TryTwo(net, r.log, name, a[1..], b);
      }
    }
  }

  lemma TryOne(net: seq<Attempt>, log: seq<Asked>, name: seq<byte>, task: Task)
    requires GoodReplies(net) && |log| <= 48 && Fits(name) && Askable(task)
    ensures TryAll(net, log, name, [task]) == Try(net, log, name, task)
  {
    var r := Try(net, log, name, task);
    assert [task][1..] == [];
    if !(r.addr.Some? || r.stuck) {
      assert TryAll(net, r.log, name, []) == Attempted(None, r.log, false);
    }
  }

  lemma InsideWithin(p: Packet, hs: seq<nat>)
    requires Inside(p, hs)
    ensures AllWithin(p, hs)
  {
    forall k | 0 <= k < |hs|
      ensures hs[k] + 10 <= |p.buf|
    {
      assert Within(p, hs[k]);
    }
  }

  lemma {:induction false} AdditionalTried(net: seq<Attempt>, log: seq<Asked>, name: seq<byte>, p: Packet, k: nat, hs: seq<nat>)
    requires GoodReplies(net) && |log| <= 48 && Fits(name) && Inside(p, hs) && AllWithin(p, hs)
    ensures Outcome(TryAdditional(net, log, name, p, k, hs)) == TryAll(net, log, name, AdditionalTasks(p, hs))
    decreases |hs|
  {
    if hs != [] {
      var r := OneAdditional(net, log, name, p, k, hs[0]);
      AdditionalTriedOne(net, log, name, p, k, hs[0]);
      TryTwo(net, log, name, FromAdditional(p, hs[0]), AdditionalTasks(p, hs[1..]));
      if Fruitless(r) {
        AdditionalTried(net, r.log, name, p, k, hs[1..]);
      }
    }
  }

  lemma AdditionalTriedOne(net: seq<Attempt>, log: seq<Asked>, name: seq<byte>, p: Packet, k: nat, h: nat)
    requires GoodReplies(net) && |log| <= 48 && Fits(name) && Within(p, h)
    ensures Outcome(OneAdditional(net, log, name, p, k, h)) == TryAll(net, log, name, FromAdditional(p, h))
  {
    if IsAddress(p, h) {
      TryOne(net, log, name, AskAt(p.buf[h + 10..h + 14]));
    }
  }

  lemma ServerTriedOne(net: seq<Attempt>, log: seq<Asked>, name: seq<byte>, p: Packet, k: nat, h: nat)
    requires GoodReplies(net) && |log| <= 48 && Fits(name) && Within(p, h)
    ensures Askable(NamedBy(p, h, true))
    ensures Outcome(OneServer(net, log, name, p, k, h)) == TryAll(net, log, name, FromAuthority(p, h))
  {
    if RecordType(p.buf, h) == T_NS {
      TryOne(net, log, name, NamedBy(p, h, true));
    }
  }

  lemma {:induction false} ServersTried(net: seq<Attempt>, log: seq<Asked>, name: seq<byte>, p: Packet, k: nat, hs: seq<nat>)
    requires GoodReplies(net) && |log| <= 48 && Fits(name) && Inside(p, hs) && AllWithin(p, hs)
    ensures Outcome(TryServers(net, log, name, p, k, hs)) == TryAll(net, log, name, AuthorityTasks(p, hs))
    decreases |hs|
  {
    if hs != [] {
      var r := OneServer(net, log, name, p, k, hs[0]);
      ServerTriedOne(net, log, name, p, k, hs[0]);
      TryTwo(net, log, name, FromAuthority(p, hs[0]), AuthorityTasks(p, hs[1..]));
      if Fruitless(r) {
        ServersTried(net, r.log, name, p, k, hs[1..]);
      }
    }
  }

  lemma AliasTriedOne(net: seq<Attempt>, log: seq<Asked>, name: seq<byte>, p: Packet, k: nat, h: nat)
    requires GoodReplies(net) && |log| <= 48 && Fits(name) && Within(p, h)
    ensures Askable(NamedBy(p, h, false))
    ensures Outcome(OneAlias(net, log, p, k, h)) == TryAll(net, log, name, FromAnswer(p, h))
  {
    if RecordType(p.buf, h) == T_CNAME {
      TryOne(net, log, name, NamedBy(p, h, false));
    }
  }

  lemma {:induction false} AliasesTried(net: seq<Attempt>, log: seq<Asked>, name: seq<byte>, p: Packet, k: nat, hs: seq<nat>)
    requires GoodReplies(net) && |log| <= 48 && Fits(name) && Inside(p, hs) && AllWithin(p, hs)
    ensures Outcome(TryAliases(net, log, p, k, hs)) == TryAll(net, log, name, AnswerTasks(p, hs))
    decreases |hs|
  {
    if hs != [] {
      var r := OneAlias(net, log, p, k, hs[0]);
      AliasTriedOne(net, log, name, p, k, hs[0]);
      TryTwo(net, log, name, FromAnswer(p, hs[0]), AnswerTasks(p, hs[1..]));
      if Fruitless(r) {
        AliasesTried(net, r.log, name, p, k, hs[1..]);
      }
    }
  }

  /** None of the records at these headers holds an address. */
  predicate NoA(p: Packet, hs: seq<nat>) {
    forall k :: 0 <= k < |hs| && hs[k] + 10 <= |p.buf| ==>
      !(p.buf[hs[k]] == 0 && p.buf[hs[k] + 1] == 1 && p.buf[hs[k] + 8] == 0 && p.buf[hs[k] + 9] == 4)
  }

  lemma {:induction false} NoAIsNone(p: Packet, hs: seq<nat>)
    requires Inside(p, hs) && NoA(p, hs)
    ensures FirstAddress(p, hs) == None
    decreases |hs|
  {
    if hs != [] {
      assert Within(p, hs[0]);
      assert forall k :: 0 <= k < |hs| - 1 ==> hs[1..][k] == hs[k + 1];
      NoAIsNone(p, hs[1..]);
    }
  }

  /**
   * A query whose reply has no address in its ANSWER section: if that or the AUTHORITY section is cut
   * short, it fails without another query; else everything there is to try is tried, in order, and it
   * comes to what that comes to.
   */
  lemma QueryFollowsPlan(net: seq<Attempt>, log: seq<Asked>, name: seq<byte>, server: seq<byte>, p: Packet)
    requires GoodReplies(net) && |log| < 48 && Fits(name) && At(net, |log|).reply == Some(p) && NoA(p, Answers(p, name).0)
    ensures var r, asked := Outcome(Query(net, log, name, server)), log + [Asked(server, name)];
      if |Answers(p, name).0| < Word(p.buf[6], p.buf[7]) || |Authority(p, name).0| < Word(p.buf[8], p.buf[9]) then
        r == Attempted(None, asked, false)
      else r == TryAll(net, asked, name, Plan(p, name))
  {
    NoAIsNone(p, Answers(p, name).0);
    var asked := log + [Asked(server, name)];
    assert Query(net, log, name, server) == Examine(net, asked, name, p, |log|);
    if |Answers(p, name).0| >= Count(p, 6) && |Authority(p, name).0| >= Count(p, 8) {
      ExamineFollowsPlan(net, asked, name, p, |log|);
    }
  }

  lemma ExamineFollowsPlan(net: seq<Attempt>, log: seq<Asked>, name: seq<byte>, p: Packet, k: nat)
    requires GoodReplies(net) && |log| <= 48 && Fits(name) && GoodPacket(p) && FirstAddress(p, Answers(p, name).0).None?
    requires |Answers(p, name).0| >= Count(p, 6) && |Authority(p, name).0| >= Count(p, 8)
    ensures Outcome(Examine(net, log, name, p, k)) == TryAll(net, log, name, Plan(p, name))
  {
    var a, b, c := Additional(p, name).0, Authority(p, name).0, Answers(p, name).0;
    InsideWithin(p, a);
    InsideWithin(p, b);
    InsideWithin(p, c);
    ThreeTried(net, log, name, p, k, a, b, c);
    ExamineSearches(net, log, name, p, k);
  }

  lemma ExamineSearches(net: seq<Attempt>, log: seq<Asked>, name: seq<byte>, p: Packet, k: nat)
    requires GoodReplies(net) && |log| <= 48 && Fits(name) && GoodPacket(p) && FirstAddress(p, Answers(p, name).0).None?
    requires |Answers(p, name).0| >= Count(p, 6) && |Authority(p, name).0| >= Count(p, 8)
    ensures Examine(net, log, name, p, k) == Searches(net, log, name, p, k, Additional(p, name).0, Authority(p, name).0, Answers(p, name).0)
  {
  }

  /** The three searches one after the other. */
  function Searches(net: seq<Attempt>, log: seq<Asked>, name: seq<byte>, p: Packet, k: nat, a: seq<nat>, b: seq<nat>, c: seq<nat>): Answer
    requires GoodReplies(net) && |log| <= 48 && Fits(name) && Inside(p, a) && Inside(p, b) && Inside(p, c)
  {
    var r := TryAdditional(net, log, name, p, k, a);
    if !Fruitless(r) then r
    else
      var t := TryServers(net, r.log, name, p, k, b);
      if !Fruitless(t) then t else TryAliases(net, t.log, p, k, c)
  }

  lemma ThreeTried(net: seq<Attempt>, log: seq<Asked>, name: seq<byte>, p: Packet, k: nat, a: seq<nat>, b: seq<nat>, c: seq<nat>)
    requires GoodReplies(net) && |log| <= 48 && Fits(name) && Inside(p, a) && Inside(p, b) && Inside(p, c)
    requires AllWithin(p, a) && AllWithin(p, b) && AllWithin(p, c)
    ensures Outcome(Searches(net, log, name, p, k, a, b, c))
         == TryAll(net, log, name, AdditionalTasks(p, a) + AuthorityTasks(p, b) + AnswerTasks(p, c))
  {
    AdditionalTried(net, log, name, p, k, a);
    var r := TryAdditional(net, log, name, p, k, a);
    ServersTried(net, r.log, name, p, k, b);
    var t := TryServers(net, r.log, name, p, k, b);
    AliasesTried(net, t.log, name, p, k, c);
    TryTwo(net, log, name, AdditionalTasks(p, a), AuthorityTasks(p, b));
    TryTwo(net, log, name, AdditionalTasks(p, a) + AuthorityTasks(p, b), AnswerTasks(p, c));
  }

  /** The queries made by the time the first `j` things have been tried in vain; None if one of them was not in vain. */
  function TriedInVain(net: seq<Attempt>, log: seq<Asked>, name: seq<byte>, tasks: seq<Task>, j: nat): (r: Option<seq<Asked>>)
    requires GoodReplies(net) && |log| <= 48 && Fits(name) && j <= |tasks| && forall k :: 0 <= k < |tasks| ==> Askable(tasks[k])
    ensures r.Some? ==> |r.value| <= 48
    decreases j
  {
    if j == 0 then Some(log)
    else
      var r := Try(net, log, name, tasks[0]);
      if r.addr.Some? || r.stuck then None else TriedInVain(net, r.log, name, tasks[1..], j - 1)
  }

  /** The `j`-th thing is the first that is not tried in vain, and it leads to this address. */
  predicate Yields(net: seq<Attempt>, log: seq<Asked>, name: seq<byte>, tasks: seq<Task>, j: nat, addr: seq<byte>)
    requires GoodReplies(net) && |log| <= 48 && Fits(name) && forall k :: 0 <= k < |tasks| ==> Askable(tasks[k])
  {
    && j < |tasks| && TriedInVain(net, log, name, tasks, j).Some?
    && Try(net, TriedInVain(net, log, name, tasks, j).value, name, tasks[j]).addr == Some(addr)
  }

  /** The search succeeds exactly when one thing does after all earlier ones were tried in vain. */
  lemma {:induction false} SearchSucceedsExactlyWhen(net: seq<Attempt>, log: seq<Asked>, name: seq<byte>, tasks: seq<Task>, addr: seq<byte>)
    requires GoodReplies(net) && |log| <= 48 && Fits(name) && forall k :: 0 <= k < |tasks| ==> Askable(tasks[k])
    ensures TryAll(net, log, name, tasks).addr == Some(addr) <==> exists j: nat :: Yields(net, log, name, tasks, j, addr)
    decreases |tasks|
  {
    if tasks != [] {
      var r := Try(net, log, name, tasks[0]);
      if r.addr.Some? || r.stuck {
        assert Yields(net, log, name, tasks, 0, addr) <==> r.addr == Some(addr);
      } else {
        SearchSucceedsExactlyWhen(net, r.log, name, tasks[1..], addr);
        if j: nat :| Yields(net, r.log, name, tasks[1..], j, addr) {
          assert Yields(net, log, name, tasks, j + 1, addr);
        }
        if j: nat :| Yields(net, log, name, tasks, j, addr) {
          assert j > 0 && Yields(net, r.log, name, tasks[1..], j - 1, addr);
        }
      }
    }
  }

  // ---------------------------------------------------------------------------------------------
  // Servers with addresses
  // ---------------------------------------------------------------------------------------------

  lemma {:induction false} FirstTask(p: Packet, hs: seq<nat>, rs: seq<Record>, k: nat)
    requires HeadersOf(p, hs, rs) && AllWithin(p, hs) && FirstA(rs, k)
    ensures AdditionalTasks(p, hs) != [] && AdditionalTasks(p, hs)[0] == AskAt(rs[k].data)
    decreases k
  {
    RecordIsA(p, hs[0], rs[0]);
    if k > 0 {
      assert forall j :: 0 <= j < |rs| - 1 ==> hs[1..][j] == hs[j + 1] && rs[1..][j] == rs[j + 1];
      FirstTask(p, hs[1..], rs[1..], k - 1);
    }
  }

  lemma FirstTried(net: seq<Attempt>, log: seq<Asked>, name: seq<byte>, tasks: seq<Task>, server: seq<byte>)
    requires GoodReplies(net) && |log| < 48 && Fits(name) && (forall k :: 0 <= k < |tasks| ==> Askable(tasks[k]))
    requires tasks != [] && tasks[0] == AskAt(server)
    ensures log + [Asked(server, name)] <= TryAll(net, log, name, tasks).log
  {
    var r := Query(net, log, name, server);
    assert log + [Asked(server, name)] <= r.log;
    TryLater(net, r.log, name, tasks[1..]);
  }

  lemma {:induction false} TryLater(net: seq<Attempt>, log: seq<Asked>, name: seq<byte>, tasks: seq<Task>)
    requires GoodReplies(net) && |log| <= 48 && Fits(name) && forall k :: 0 <= k < |tasks| ==> Askable(tasks[k])
    ensures log <= TryAll(net, log, name, tasks).log
    decreases |tasks|
  {
    if tasks != [] {
      var r := Try(net, log, name, tasks[0]);
      assert log <= r.log;
      TryLater(net, r.log, name, tasks[1..]);
    }
  }

  lemma PlanBegins(p: Packet, name: seq<byte>, rs: seq<Record>, ns: seq<Record>, more: seq<Record>, k: nat)
    requires AlsoHolds(p, name, rs, ns, more) && FirstA(more, k)
    ensures Fits(name) && Plan(p, name) != [] && Plan(p, name)[0] == AskAt(more[k].data)
  {
    AdditionalFound(p, name, rs, ns, more);
    InsideWithin(p, Additional(p, name).0);
    FirstTask(p, Additional(p, name).0, more, k);
  }

  /**
   * When the reply has no address in its ANSWER section but one in its ADDITIONAL section, the next query
   * is for the same name, to the server whose address is the data of the first such record.
   */
  lemma AdditionalIsAsked(net: seq<Attempt>, log: seq<Asked>, name: seq<byte>, server: seq<byte>, p: Packet, rs: seq<Record>, ns: seq<Record>, more: seq<Record>, k: nat)
    requires GoodReplies(net) && |log| < 47 && At(net, |log|).reply == Some(p) && AlsoHolds(p, name, rs, ns, more)
    requires FirstA(more, k) && forall j :: 0 <= j < |rs| ==> !IsA(rs[j])
    ensures Fits(name) && log + [Asked(server, name), Asked(more[k].data, name)] <= Query(net, log, name, server).log
  {
    NothingDirect(p, name, rs, ns, more);
    PlanBegins(p, name, rs, ns, more, k);
    var asked := log + [Asked(server, name)];
    PlanIsTried(net, asked, name, p, |log|, more[k].data);
    assert Query(net, log, name, server) == Examine(net, asked, name, p, |log|);
    assert asked + [Asked(more[k].data, name)] == log + [Asked(server, name), Asked(more[k].data, name)];
  }

  lemma NothingDirect(p: Packet, name: seq<byte>, rs: seq<Record>, ns: seq<Record>, more: seq<Record>)
    requires AlsoHolds(p, name, rs, ns, more) && forall j :: 0 <= j < |rs| ==> !IsA(rs[j])
    ensures Fits(name) && FirstAddress(p, Answers(p, name).0).None?
    ensures |Answers(p, name).0| >= Count(p, 6) && |Authority(p, name).0| >= Count(p, 8)
  {
    AnswersFound(p, name, rs);
    AuthorityFound(p, name, rs, ns, more);
    CountsFound(p, name, rs, ns, more);
    NoAddress(p, Answers(p, name).0, rs);
  }

  lemma PlanIsTried(net: seq<Attempt>, log: seq<Asked>, name: seq<byte>, p: Packet, k: nat, server: seq<byte>)
    requires GoodReplies(net) && |log| < 48 && Fits(name) && GoodPacket(p) && FirstAddress(p, Answers(p, name).0).None?
    requires |Answers(p, name).0| >= Count(p, 6) && |Authority(p, name).0| >= Count(p, 8)
    requires Plan(p, name) != [] && Plan(p, name)[0] == AskAt(server)
    ensures log + [Asked(server, name)] <= Examine(net, log, name, p, k).log
  {
    ExamineFollowsPlan(net, log, name, p, k);
    FirstTried(net, log, name, Plan(p, name), server);
  }

  /** So a host name whose first reply has an address resolves to the data of the first record that holds one. */
  lemma ResolutionIsData(net: seq<Attempt>, h: seq<byte>, memory: seq<byte>, p: Packet, rs: seq<Record>, k: nat)
    requires GoodReplies(net) && net != [] && net[0].reply == Some(p)
    requires |memory| == 257 && Encodes(h, 256) && AnswersWith(p, Taken(h, memory), rs) && FirstA(rs, k)
    ensures Ends(net, h, memory) && Resolution(net, h, memory) == Some(rs[k].data)
  {
    AnswerIsData(net, [], Taken(h, memory), RootFor(net, 0), p, rs, k);
  }
}
