/**
 * The resource-record walker (lib/dns.c:57-106; section 4.1.3 of RFC 1035).  A record is known by
 * the position of its fixed header, just after its name.
 */
module DnsRecords {
  import opened Bytes
  import opened DnsNames
  import opened DnsCompression

  const HEADER := 10

  const T_A := 1
  const T_NS := 2
  const T_CNAME := 5

  /** The position after the name at `ptr`, or None when the name runs up to `limit`. */
  function SkipName(buf: seq<byte>, ptr: nat, limit: nat): (r: Option<nat>)
    requires ptr < |buf| && limit < |buf|
    ensures r.Some? ==> ptr < r.value
    decreases limit - ptr
  {
    if buf[ptr] == 0 then Some(ptr + 1)
    else if ptr >= limit then None
    else if buf[ptr] >= POINTER_TAG then Some(ptr + 2)
    else SkipName(buf, ptr + 1, limit)
  }

  function DataLength(buf: seq<byte>, h: nat): nat
    requires h + HEADER <= |buf|
  {
    Word(buf[h + 8], buf[h + 9])
  }

  function RecordType(buf: seq<byte>, h: nat): nat
    requires h + HEADER <= |buf|
  {
    Word(buf[h], buf[h + 1])
  }

  /** The header of the record at `ptr`, if the whole record lies below `limit`. */
  function Nearby(buf: seq<byte>, ptr: nat, limit: nat): (r: Option<nat>)
    requires ptr < |buf| && limit < |buf|
    ensures r.Some? ==> ptr < r.value && r.value + HEADER <= limit && r.value + HEADER + DataLength(buf, r.value) <= limit
  {
    match SkipName(buf, ptr, limit)
    case None => None
    case Some(h) =>
      if h + HEADER > limit then None
      else if h + HEADER + DataLength(buf, h) > limit then None
      else Some(h)
  }

  function After(buf: seq<byte>, h: nat): nat
    requires h + HEADER <= |buf|
  {
    h + HEADER + DataLength(buf, h)
  }

  /**
   * dns_nearby_answer.  On any bytes a success moves the cursor on by at least eleven octets and not
   * past the limit; a failure leaves it alone.
   */
  method DnsNearbyAnswer(buf: array<byte>, ptr: nat, limit: nat) returns (answer: int, next: nat)
    requires ptr < buf.Length && limit < buf.Length
    ensures match Nearby(buf[..], ptr, limit)
            case None => answer == -1 && next == ptr
            case Some(h) => answer == h && next == After(buf[..], h) && ptr + 11 <= next <= limit
  {
    ghost var packet := buf[..];
    var p := ptr;
    while buf[p] != 0
      invariant ptr <= p < buf.Length && SkipName(packet, ptr, limit) == SkipName(packet, p, limit)
      decreases limit - p
    {
      if p >= limit {
        return -1, ptr;
      }
      if buf[p] >= POINTER_TAG {
        p := p + 1;
        break;
      }
      p := p + 1;
    }
    assert SkipName(packet, ptr, limit) == Some(p + 1);
    p := p + 1;
    if p + HEADER > limit {
      return -1, ptr;
    }
    answer := p;
    p := p + HEADER + Word(buf[p + 8], buf[p + 9]);
    if p > limit {
      return -1, ptr;
    }
    next := p;
  }

  /** The headers of up to `n` records from `ptr` on, and the position after the last of them. */
  function Records(buf: seq<byte>, ptr: nat, limit: nat, n: nat): (r: (seq<nat>, nat))
    requires ptr < |buf| && limit < |buf|
    ensures |r.0| <= n && r.1 < |buf|
    ensures forall k :: 0 <= k < |r.0| ==> r.0[k] + HEADER <= limit && r.0[k] + HEADER + DataLength(buf, r.0[k]) <= limit
    decreases n
  {
    if n == 0 then ([], ptr)
    else
      match Nearby(buf, ptr, limit)
      case None => ([], ptr)
      case Some(h) =>
        var rest := Records(buf, After(buf, h), limit, n - 1);
        ([h] + rest.0, rest.1)
  }

  // ---------------------------------------------------------------------------------------------
  // Serialised records
  // ---------------------------------------------------------------------------------------------

  /** How a name in a record ends: at the root, or in a pointer. */
  datatype NameEnd = Root | Pointer(hi: byte, lo: byte)

  datatype RawRecord = Record(labels: seq<seq<byte>>, end: NameEnd, typ: nat, cls: nat, ttl: seq<byte>, data: seq<byte>)

  predicate GoodRecord(r: RawRecord) {
    && (forall k :: 0 <= k < |r.labels| ==> 1 <= |r.labels[k]| <= 63 && Plain(r.labels[k], 0, |r.labels[k]|))
    && (r.end.Pointer? ==> r.end.hi >= POINTER_TAG)
    && r.typ < 0x10000 && r.cls < 0x10000 && |r.ttl| == 4 && |r.data| < 0x10000
  }

  type Record = r: RawRecord | GoodRecord(r) witness Record([], Root, 0, 0, [0, 0, 0, 0], [])

  function LabelBytes(ls: seq<seq<byte>>): seq<byte>
    requires forall k :: 0 <= k < |ls| ==> |ls[k]| <= 255
  {
    if ls == [] then [] else [|ls[0]|] + ls[0] + LabelBytes(ls[1..])
  }

  function TwoBytes(n: nat): (r: seq<byte>)
    requires n < 0x10000
    ensures |r| == 2 && Word(r[0], r[1]) == n
  {
    [n / 256, n % 256]
  }

  function NameBytes(r: Record): seq<byte>
  {
    LabelBytes(r.labels) + (if r.end.Root? then [0] else [r.end.hi, r.end.lo])
  }

  function HeaderBytes(r: Record): (h: seq<byte>)
    ensures |h| == HEADER
  {
    TwoBytes(r.typ) + TwoBytes(r.cls) + r.ttl + TwoBytes(|r.data|)
  }

  function RecordBytes(r: Record): seq<byte>
  {
    NameBytes(r) + HeaderBytes(r) + r.data
  }

  function AllBytes(rs: seq<Record>): seq<byte>
  {
    if rs == [] then [] else RecordBytes(rs[0]) + AllBytes(rs[1..])
  }

  /** Where the headers are when the records are laid out from `at` on. */
  function HeaderOffsets(rs: seq<Record>, at: nat): (hs: seq<nat>)
    ensures |hs| == |rs|
  {
    if rs == [] then []
    else [at + |NameBytes(rs[0])|] + HeaderOffsets(rs[1..], at + |RecordBytes(rs[0])|)
  }

  /** A run of plain octets is skipped. */
  lemma {:induction false} SkipPlain(buf: seq<byte>, ptr: nat, k: nat, limit: nat)
    requires ptr + k < limit < |buf| && Plain(buf, ptr, ptr + k)
    ensures SkipName(buf, ptr, limit) == SkipName(buf, ptr + k, limit)
    decreases k
  {
    if k > 0 {
      SkipPlain(buf, ptr + 1, k - 1, limit);
    }
  }

  lemma {:induction false} LabelBytesPlain(ls: seq<seq<byte>>)
    requires forall k :: 0 <= k < |ls| ==> 1 <= |ls[k]| <= 63 && Plain(ls[k], 0, |ls[k]|)
    ensures Plain(LabelBytes(ls), 0, |LabelBytes(ls)|)
  {
    if ls != [] {
      LabelBytesPlain(ls[1..]);
      var b := LabelBytes(ls);
      var t := LabelBytes(ls[1..]);
      forall i | 0 <= i < |b|
        ensures 1 <= b[i] < POINTER_TAG
      {
        if i > |ls[0]| {
          assert b[i] == t[i - 1 - |ls[0]|];
        } else if i > 0 {
          assert b[i] == ls[0][i - 1];
        }
      }
    }
  }

  /** The bytes of `part` stand in `buf` at `at`. */
  predicate Holds(buf: seq<byte>, at: nat, part: seq<byte>) {
    at + |part| <= |buf| && forall i :: 0 <= i < |part| ==> part[i] == buf[at + i]
  }

  lemma HoldsParts(buf: seq<byte>, at: nat, a: seq<byte>, b: seq<byte>)
    requires Holds(buf, at, a + b)
    ensures Holds(buf, at, a) && Holds(buf, at + |a|, b)
  {
    forall i | 0 <= i < |a|
      ensures a[i] == buf[at + i]
    {
      assert a[i] == (a + b)[i];
    }
    forall i | 0 <= i < |b|
      ensures b[i] == buf[at + |a| + i]
    {
      assert b[i] == (a + b)[|a| + i];
    }
  }

  /** The name of a record is skipped to its header. */
  lemma NameSkipped(buf: seq<byte>, at: nat, r: Record, limit: nat)
    requires Holds(buf, at, NameBytes(r)) && at + |NameBytes(r)| <= limit < |buf|
    ensures SkipName(buf, at, limit) == Some(at + |NameBytes(r)|)
  {
    var b := LabelBytes(r.labels);
    var e: seq<byte> := if r.end.Root? then [0] else [r.end.hi, r.end.lo];
    HoldsParts(buf, at, b, e);
    LabelBytesPlain(r.labels);
    HeldPlain(buf, at, b);
    SkipPlain(buf, at, |b|, limit);
    assert buf[at + |b|] == e[0] by {
      HeldFirst(buf, at + |b|, e);
    }
  }

  lemma HeldPlain(buf: seq<byte>, at: nat, part: seq<byte>)
    requires Holds(buf, at, part) && Plain(part, 0, |part|)
    ensures Plain(buf, at, at + |part|)
  {
    forall i | at <= i < at + |part|
      ensures buf[i] == part[i - at]
    {
    }
  }

  lemma HeldFirst(buf: seq<byte>, at: nat, part: seq<byte>)
    requires Holds(buf, at, part) && part != []
    ensures buf[at] == part[0]
  {
  }

  lemma RecordFound(buf: seq<byte>, at: nat, r: Record, limit: nat)
    requires Holds(buf, at, RecordBytes(r)) && at + |RecordBytes(r)| <= limit < |buf|
    ensures var h := at + |NameBytes(r)|;
      && Nearby(buf, at, limit) == Some(h) && After(buf, h) == at + |RecordBytes(r)|
      && IsHeaderOf(buf, h, r)
  {
    var n := NameBytes(r);
    var h := HeaderBytes(r);
    HoldsParts(buf, at, n + h, r.data);
    HoldsParts(buf, at, n, h);
    NameSkipped(buf, at, r, limit);
    var o := at + |n|;
    assert buf[o..o + HEADER] == h;
    assert buf[o] == h[0] && buf[o + 1] == h[1] && buf[o + 8] == h[8] && buf[o + 9] == h[9];
  }

  /** The header at `h` is that of `r`, and its data follows. */
  predicate IsHeaderOf(buf: seq<byte>, h: nat, r: Record) {
    && h + HEADER <= |buf| && RecordType(buf, h) == r.typ && DataLength(buf, h) == |r.data|
    && Holds(buf, h + HEADER, r.data)
  }

  lemma OneMoreRecord(buf: seq<byte>, ptr: nat, limit: nat, n: nat, h: nat)
    requires ptr < |buf| && limit < |buf| && n > 0 && Nearby(buf, ptr, limit) == Some(h)
    ensures var rest := Records(buf, After(buf, h), limit, n - 1);
      Records(buf, ptr, limit, n) == ([h] + rest.0, rest.1)
  {
  }

  /** The records `rs` stand one after the other between `at` and `limit`. */
  predicate Laid(buf: seq<byte>, at: nat, rs: seq<Record>, limit: nat)
    decreases |rs|
  {
    && limit < |buf|
    && if rs == [] then at == limit
       else
         && Holds(buf, at, RecordBytes(rs[0])) && at + |RecordBytes(rs[0])| <= limit
         && Laid(buf, at + |RecordBytes(rs[0])|, rs[1..], limit)
  }

  lemma {:induction false} SerialisedLaid(buf: seq<byte>, at: nat, rs: seq<Record>, limit: nat)
    requires Holds(buf, at, AllBytes(rs)) && at + |AllBytes(rs)| == limit < |buf|
    ensures Laid(buf, at, rs, limit)
    decreases |rs|
  {
    if rs != [] {
      assert AllBytes(rs) == RecordBytes(rs[0]) + AllBytes(rs[1..]);
      HoldsParts(buf, at, RecordBytes(rs[0]), AllBytes(rs[1..]));
      SerialisedLaid(buf, at + |RecordBytes(rs[0])|, rs[1..], limit);
    }
  }

  lemma OffsetsHead(rs: seq<Record>, at: nat)
    requires rs != []
    ensures HeaderOffsets(rs, at) == [at + |NameBytes(rs[0])|] + HeaderOffsets(rs[1..], at + |RecordBytes(rs[0])|)
  {
  }

  lemma {:induction false} HeadersSay(buf: seq<byte>, at: nat, rs: seq<Record>, limit: nat, k: nat)
    requires Laid(buf, at, rs, limit) && k < |rs|
    ensures IsHeaderOf(buf, HeaderOffsets(rs, at)[k], rs[k])
    decreases |rs|
  {
    var tail := rs[1..];
    OffsetsHead(rs, at);
    if k > 0 {
      HeadersSay(buf, at + |RecordBytes(rs[0])|, tail, limit, k - 1);
      assert tail[k - 1] == rs[k];
    } else {
      RecordFound(buf, at, rs[0], limit);
    }
  }

  /** From `at` on the walker comes by exactly the headers `hs`, and then to `end`. */
  predicate Leads(buf: seq<byte>, limit: nat, at: nat, hs: seq<nat>, end: nat)
    decreases |hs|
  {
    && at < |buf| && limit < |buf|
    && if hs == [] then at == end
       else
         && Nearby(buf, at, limit) == Some(hs[0]) && hs[0] + HEADER <= |buf|
         && Leads(buf, limit, After(buf, hs[0]), hs[1..], end)
  }

  lemma {:induction false} LeadsRecords(buf: seq<byte>, limit: nat, at: nat, hs: seq<nat>, end: nat)
    requires Leads(buf, limit, at, hs, end)
    ensures Records(buf, at, limit, |hs|) == (hs, end)
    decreases |hs|
  {
    if hs != [] {
      LeadsRecords(buf, limit, After(buf, hs[0]), hs[1..], end);
      OneMoreRecord(buf, at, limit, |hs|, hs[0]);
      assert hs == [hs[0]] + hs[1..];
    }
  }

  lemma {:induction false} LaidLeads(buf: seq<byte>, at: nat, rs: seq<Record>, limit: nat)
    requires Laid(buf, at, rs, limit)
    ensures Leads(buf, limit, at, HeaderOffsets(rs, at), limit)
    decreases |rs|
  {
    if rs != [] {
      RecordFound(buf, at, rs[0], limit);
      LaidLeads(buf, at + |RecordBytes(rs[0])|, rs[1..], limit);
      OffsetsHead(rs, at);
    }
  }

  lemma HeadersFound(buf: seq<byte>, at: nat, rs: seq<Record>, limit: nat)
    requires Laid(buf, at, rs, limit)
    ensures at < |buf| && Records(buf, at, limit, |rs|) == (HeaderOffsets(rs, at), limit)
  {
    LaidLeads(buf, at, rs, limit);
    LeadsRecords(buf, limit, at, HeaderOffsets(rs, at), limit);
  }

  /**
   * Walking a serialised list of records finds each record's header, in order, with its type and its
   * data, and ends exactly at the end.
   */
  lemma WalkFindsRecords(buf: seq<byte>, at: nat, rs: seq<Record>, limit: nat)
    requires Holds(buf, at, AllBytes(rs)) && at + |AllBytes(rs)| == limit < |buf|
    ensures var (hs, end) := Records(buf, at, limit, |rs|);
      && end == limit && |hs| == |rs|
      && forall k :: 0 <= k < |rs| ==> IsHeaderOf(buf, hs[k], rs[k])
  {
    SerialisedLaid(buf, at, rs, limit);
    HeadersFound(buf, at, rs, limit);
    forall k | 0 <= k < |rs|
      ensures IsHeaderOf(buf, HeaderOffsets(rs, at)[k], rs[k])
    {
      HeadersSay(buf, at, rs, limit, k);
    }
  }
}
