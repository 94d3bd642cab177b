/**
 * The SOCKS5 server side of one client connection (src/proxy.c:79-346): what the bytes gathered in
 * the queue mean, and how one received chunk moves the handshake on.  The request layout is that of
 * section 4 of RFC 1928.
 */
module Socks {
  import opened Bytes

  const CAPACITY := 384

  datatype Level = Idle | Ver | Auth | Req | Pass | Connecting | Forwarding

  /** Handshake progress; a stream's level never moves down this scale. */
  function Rank(level: Level): nat {
    match level
    case Idle => 0
    case Ver => 1
    case Auth => 2
    case Req => 3
    case Pass => 4
    case Connecting => 4
    case Forwarding => 5
  }

  const NO_AUTH: seq<byte> := [5, 0]
  const USER_AUTH: seq<byte> := [5, 2]
  const GRANT: seq<byte> := [5, 0, 0, 1, 0, 0, 0, 0, 0, 0]

  // ---------------------------------------------------------------------------------------------
  // Requests
  // ---------------------------------------------------------------------------------------------

  datatype Request =
    | Ipv4(addr: seq<byte>, port: nat)
    | Host(name: seq<byte>, port: nat)
    | Ipv6(addr: seq<byte>, port: nat)

  predicate WellFormed(r: Request) {
    && r.port < 0x10000
    && match r
       case Ipv4(addr, _) => |addr| == 4
       case Host(name, _) => |name| < 256
       case Ipv6(addr, _) => |addr| == 16
  }

  /** The CONNECT request as a client puts it on the wire. */
  function EncodeRequest(r: Request): seq<byte>
    requires WellFormed(r)
  {
    var port: seq<byte> := [r.port / 256, r.port % 256];
    match r
    case Ipv4(addr, _) => [5, 1, 0, 1] + addr + port
    case Host(name, _) => [5, 1, 0, 3] + [|name|] + name + port
    case Ipv6(addr, _) => [5, 1, 0, 4] + addr + port
  }

  datatype Verdict = More | Reject | Connect(request: Request)

  /** The decision the request stage takes on the bytes gathered so far. */
  function ParseRequest(q: seq<byte>): Verdict {
    if |q| < 4 then More
    else if q[0] != 5 || q[1] != 1 || q[2] != 0 then Reject
    else if q[3] == 1 then
      if |q| < 10 then More
      else Connect(Ipv4(q[4..8], Word(q[8], q[9])))
    else if q[3] == 3 then
      if |q| < 5 || |q| < q[4] as int + 7 then More
      else Connect(Host(q[5..5 + q[4] as int], Word(q[5 + q[4] as int], q[6 + q[4] as int])))
    else if q[3] == 4 then
      if |q| < 22 then More
      else Connect(Ipv6(q[4..20], Word(q[20], q[21])))
    else Reject
  }

  /** A request is recognised exactly when its encoding starts the queue; the rest is ignored. */
  lemma ParseMeansEncoded(q: seq<byte>, r: Request)
    ensures ParseRequest(q) == Connect(r) <==> WellFormed(r) && EncodeRequest(r) <= q
  {
    if WellFormed(r) && EncodeRequest(r) <= q {
      EncodedParses(q, r);
    }
    if ParseRequest(q) == Connect(r) {
      ParsedEncodes(q, r);
    }
  }

  lemma ParsedEncodes(q: seq<byte>, r: Request)
    requires ParseRequest(q) == Connect(r)
    ensures WellFormed(r) && EncodeRequest(r) <= q
  {
    match r
    case Ipv4(addr, port) =>
      FixedPrefix(q, 1, 4);
      assert EncodeRequest(r) == q[..10];
    case Host(name, port) =>
      HostPrefix(q);
      assert EncodeRequest(r) == q[..7 + q[4] as int];
    case Ipv6(addr, port) =>
      FixedPrefix(q, 4, 16);
      assert EncodeRequest(r) == q[..22];
  }

  lemma FixedPrefix(q: seq<byte>, kind: byte, n: nat)
    requires |q| >= 6 + n && q[0] == 5 && q[1] == 1 && q[2] == 0 && q[3] == kind
    ensures var port := Word(q[4 + n], q[5 + n]);
      port < 0x10000 && [5, 1, 0, kind] + q[4..4 + n] + [port / 256, port % 256] == q[..6 + n]
  {
    PortOctets(q[4 + n], q[5 + n]);
  }

  lemma HostPrefix(q: seq<byte>)
    requires |q| >= 5 && |q| >= q[4] as int + 7 && q[0] == 5 && q[1] == 1 && q[2] == 0 && q[3] == 3
    ensures var n := q[4] as int;
      var port := Word(q[5 + n], q[6 + n]);
      port < 0x10000 && [5, 1, 0, 3] + [q[4]] + q[5..5 + n] + [port / 256, port % 256] == q[..7 + n]
  {
    PortOctets(q[5 + q[4] as int], q[6 + q[4] as int]);
  }

  lemma PortOctets(hi: byte, lo: byte)
    ensures Word(hi, lo) / 256 == hi as int && Word(hi, lo) % 256 == lo as int && Word(hi, lo) < 0x10000
  {
  }

  lemma EncodedParses(q: seq<byte>, r: Request)
    requires WellFormed(r) && EncodeRequest(r) <= q
    ensures ParseRequest(q) == Connect(r)
  {
    var e := EncodeRequest(r);
    var n := |e|;
    assert forall i :: 0 <= i < n ==> q[i] == e[i];
    assert q[n - 2] == e[n - 2] == r.port / 256 && q[n - 1] == e[n - 1] == r.port % 256;
    assert q[0] == 5 && q[1] == 1 && q[2] == 0;
    match r
    case Ipv4(addr, _) =>
      assert q[3] == 1 && q[4..8] == addr;
    case Host(name, _) =>
      assert q[3] == 3 && q[4] == |name|;
      assert q[5..5 + |name|] == name;
    case Ipv6(addr, _) =>
      assert q[3] == 4 && q[4..20] == addr;
  }

  /** Every proper prefix of a request leaves the server waiting for more. */
  lemma PrefixNeedsMore(r: Request, n: nat)
    requires WellFormed(r) && n < |EncodeRequest(r)|
    ensures ParseRequest(EncodeRequest(r)[..n]) == More
  {
    var e := EncodeRequest(r);
    assert |e| >= 4 && e[0] == 5 && e[1] == 1 && e[2] == 0;
    if r.Host? && n >= 5 {
      assert e[..n][4] == |r.name|;
    }
  }

  /** Octets are waited on exactly while there are less than four, or they may become a request yet. */
  lemma MoreExactlyWhen(q: seq<byte>)
    ensures ParseRequest(q) == More <==> |q| < 4 || exists r :: WellFormed(r) && q < EncodeRequest(r)
  {
    if ParseRequest(q) == More && |q| >= 4 {
      var r := Completion(q);
      assert WellFormed(r) && q < EncodeRequest(r);
    }
    if r :| WellFormed(r) && q < EncodeRequest(r) {
      PrefixNeedsMore(r, |q|);
      assert q == EncodeRequest(r)[..|q|];
    }
  }

  /** A request that begins with these octets. */
  lemma Completion(q: seq<byte>) returns (r: Request)
    requires ParseRequest(q) == More && |q| >= 4
    ensures WellFormed(r) && q < EncodeRequest(r)
  {
    if q[3] == 1 {
      r := Completion4(q);
    } else if q[3] == 3 {
      r := CompletionHost(q);
    } else {
      r := Completion6(q);
    }
  }

  lemma Completion4(q: seq<byte>) returns (r: Request)
    requires 4 <= |q| < 10 && q[0] == 5 && q[1] == 1 && q[2] == 0 && q[3] == 1
    ensures WellFormed(r) && q < EncodeRequest(r)
  {
    var all := q + Zeros(10 - |q|);
    r := Ipv4(all[4..8], Word(all[8], all[9]));
    FixedPrefix(all, 1, 4);
    assert EncodeRequest(r) == all[..10] == all;
  }

  lemma Completion6(q: seq<byte>) returns (r: Request)
    requires 4 <= |q| < 22 && q[0] == 5 && q[1] == 1 && q[2] == 0 && q[3] == 4
    ensures WellFormed(r) && q < EncodeRequest(r)
  {
    var all := q + Zeros(22 - |q|);
    r := Ipv6(all[4..20], Word(all[20], all[21]));
    FixedPrefix(all, 4, 16);
    assert EncodeRequest(r) == all[..22] == all;
  }

  lemma CompletionHost(q: seq<byte>) returns (r: Request)
    requires 4 <= |q| && q[0] == 5 && q[1] == 1 && q[2] == 0 && q[3] == 3 && (|q| < 5 || |q| < q[4] as int + 7)
    ensures WellFormed(r) && q < EncodeRequest(r)
  {
    var n := if |q| < 5 then 0 else q[4] as int;
    var all := q + Zeros(n + 7 - |q|);
    assert all[4] == n;
    r := Host(all[5..5 + n], Word(all[5 + n], all[6 + n]));
    HostPrefix(all);
    assert EncodeRequest(r) == all[..n + 7] == all;
  }

  function Zeros(n: nat): (r: seq<byte>)
    ensures |r| == n && forall k :: 0 <= k < n ==> r[k] == 0
  {
    seq(n, _ => 0)
  }

  // ---------------------------------------------------------------------------------------------
  // Chunks
  // ---------------------------------------------------------------------------------------------

  /** What the server does with a chunk: hang up, wait, answer and move on, or dial the endpoint. */
  datatype Reaction = Hang | Wait(queue: seq<byte>) | Reply(level: Level, bytes: seq<byte>) | Dial(request: Request)

  function Receive(level: Level, queue: seq<byte>, chunk: seq<byte>): Reaction {
    var q := queue + chunk;
    if |chunk| < 2 || |q| > CAPACITY then Hang
    else
      match level
      case Ver =>
        if q[0] != 5 then Hang
        else if |chunk| > 2 && q[1] == 1 && q[2] == 2 then Reply(Auth, USER_AUTH)
        else Reply(Req, NO_AUTH)
      case Auth => Reply(Req, NO_AUTH)
      case Req =>
        (match ParseRequest(q)
         case More => Wait(q)
         case Reject => Hang
         case Connect(request) => Dial(request))
      case _ => Hang
  }

  /** One chunk of a request: the stage waits while something is still missing, else it dials. */
  lemma ChunkWaits(r: Request, got: seq<byte>, chunk: seq<byte>, rest: seq<byte>)
    requires WellFormed(r) && |chunk| >= 2
    requires got + chunk + rest == EncodeRequest(r)
    ensures Receive(Req, got, chunk) == if rest == [] then Dial(r) else Wait(got + chunk)
  {
    var next := got + chunk;
    if rest == [] {
      assert next == EncodeRequest(r);
      ParseMeansEncoded(next, r);
    } else {
      assert next == EncodeRequest(r)[..|next|];
      PrefixNeedsMore(r, |next|);
    }
  }
}
