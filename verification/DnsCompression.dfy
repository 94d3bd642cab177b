/**
 * Decompression of names (lib/dns.c:111-141) against the label structure of section 4.1.4 of
 * RFC 1035.  The code scans octets and masks pointer offsets to ten bits; nothing in it stops a
 * cycle of pointers, so the exact condition under which it returns is worked out here first.
 */
module DnsCompression {
  import opened Bytes
  import opened DnsNames

  // ---------------------------------------------------------------------------------------------
  // Pointers
  // ---------------------------------------------------------------------------------------------

  /** The loop condition: an octet other than zero that is not the last one. */
  predicate More(p: seq<byte>, inlen: nat, pos: nat)
    requires inlen <= |p|
  {
    pos + 1 < inlen && p[pos] != 0
  }

  predicate IsPointer(p: seq<byte>, inlen: nat, pos: nat)
    requires inlen <= |p|
  {
    More(p, inlen, pos) && p[pos] >= POINTER_TAG
  }

  /** Where the code jumps to: the two octets, masked with 0x3FF. */
  function Target(p: seq<byte>, pos: nat): (t: nat)
    requires pos + 1 < |p|
    ensures t < MAX_HOPS
  {
    Word(p[pos], p[pos + 1]) % MAX_HOPS
  }

  /** Every jump leads below this, so a chain of more jumps runs in a circle. */
  const MAX_HOPS := 1024

  /** Following pointers from `pos`, at most `n` of them lead to something else. */
  predicate Lands(p: seq<byte>, inlen: nat, pos: nat, n: nat)
    requires inlen <= |p|
    decreases n, inlen
  {
    !IsPointer(p, inlen, pos) || (n > 0 && Lands(p, inlen, Target(p, pos), n - 1))
  }

  function Landing(p: seq<byte>, inlen: nat, pos: nat, n: nat): (q: nat)
    requires inlen <= |p| && Lands(p, inlen, pos, n)
    ensures !IsPointer(p, inlen, q)
    decreases n, inlen
  {
    if IsPointer(p, inlen, pos) then Landing(p, inlen, Target(p, pos), n - 1) else pos
  }

  function Hops(p: seq<byte>, inlen: nat, pos: nat, n: nat): (d: nat)
    requires inlen <= |p| && Lands(p, inlen, pos, n)
    ensures d <= n
    decreases n, inlen
  {
    if IsPointer(p, inlen, pos) then 1 + Hops(p, inlen, Target(p, pos), n - 1) else 0
  }

  /** The positions jumped to. */
  function Chain(p: seq<byte>, inlen: nat, pos: nat, n: nat): set<int>
    requires inlen <= |p| && Lands(p, inlen, pos, n)
    decreases n, inlen
  {
    if IsPointer(p, inlen, pos) then {Target(p, pos)} + Chain(p, inlen, Target(p, pos), n - 1) else {}
  }

  /** The number of jumps, and where they lead, do not depend on the bound. */
  lemma {:induction false} BoundIrrelevant(p: seq<byte>, inlen: nat, pos: nat, n: nat, m: nat)
    requires inlen <= |p| && Lands(p, inlen, pos, n) && (m >= n || m >= Hops(p, inlen, pos, n))
    ensures Lands(p, inlen, pos, m)
    ensures Landing(p, inlen, pos, m) == Landing(p, inlen, pos, n) && Hops(p, inlen, pos, m) == Hops(p, inlen, pos, n)
    decreases n
  {
    if IsPointer(p, inlen, pos) {
      BoundIrrelevant(p, inlen, Target(p, pos), n - 1, m - 1);
    }
  }

  lemma {:induction false} ChainCounts(p: seq<byte>, inlen: nat, pos: nat, n: nat)
    requires inlen <= |p| && Lands(p, inlen, pos, n)
    ensures |Chain(p, inlen, pos, n)| == Hops(p, inlen, pos, n)
    ensures forall x :: x in Chain(p, inlen, pos, n) ==>
              0 <= x < MAX_HOPS && Lands(p, inlen, x, n) && Hops(p, inlen, x, n) < Hops(p, inlen, pos, n)
    decreases n
  {
    if IsPointer(p, inlen, pos) {
      var t := Target(p, pos);
      ChainCounts(p, inlen, t, n - 1);
      BoundIrrelevant(p, inlen, t, n - 1, n);
      forall x | x in Chain(p, inlen, t, n - 1)
        ensures Lands(p, inlen, x, n) && Hops(p, inlen, x, n) < Hops(p, inlen, t, n - 1)
      {
        BoundIrrelevant(p, inlen, x, n - 1, n);
      }
      assert t !in Chain(p, inlen, t, n - 1);
    }
  }

  /** A chain of pointers that ends at all ends within MAX_HOPS jumps. */
  lemma EndsSoon(p: seq<byte>, inlen: nat, pos: nat, n: nat)
    requires inlen <= |p| && Lands(p, inlen, pos, n)
    ensures Lands(p, inlen, pos, MAX_HOPS) && Landing(p, inlen, pos, MAX_HOPS) == Landing(p, inlen, pos, n)
  {
    ChainCounts(p, inlen, pos, n);
    var chain := Chain(p, inlen, pos, n);
    var all := Below(MAX_HOPS);
    assert |all| == |all * chain| + |all - chain|;
    assert all * chain == chain;
    BoundIrrelevant(p, inlen, pos, n, MAX_HOPS);
  }

  /** More jumps in a row than any chain has that ends. */
  function Enough(inlen: nat): (n: nat)
    ensures n >= MAX_HOPS
  {
    MAX_HOPS + inlen
  }

  lemma EnoughLands(p: seq<byte>, inlen: nat, pos: nat, n: nat)
    requires inlen <= |p| && Lands(p, inlen, pos, n)
    ensures Lands(p, inlen, pos, Enough(inlen)) && Landing(p, inlen, pos, Enough(inlen)) == Landing(p, inlen, pos, n)
  {
    EndsSoon(p, inlen, pos, n);
    BoundIrrelevant(p, inlen, pos, MAX_HOPS, Enough(inlen));
  }

  // ---------------------------------------------------------------------------------------------
  // The scan
  // ---------------------------------------------------------------------------------------------

  /** A scan never ends, or runs out of room, or writes the name and its final zero. */
  datatype Result = Loops | Full | Wrote(bytes: seq<byte>)

  /** The scan from `pos` with `room` octets of output left; it gives up on a chain of jumps that does not end. */
  function Scan(p: seq<byte>, inlen: nat, pos: nat, room: nat): Result
    requires inlen <= |p|
    decreases room, inlen, 1
  {
    if Lands(p, inlen, pos, Enough(inlen)) then ScanAt(p, inlen, Landing(p, inlen, pos, Enough(inlen)), room) else Loops
  }

  function ScanAt(p: seq<byte>, inlen: nat, q: nat, room: nat): (r: Result)
    requires inlen <= |p| && !IsPointer(p, inlen, q)
    ensures r.Wrote? ==> 1 <= |r.bytes| <= room
    decreases room, inlen, 0
  {
    if room == 0 then Full
    else if !More(p, inlen, q) then Wrote([0])
    else Prefixed([p[q]], Scan(p, inlen, q + 1, room - 1))
  }

  /** `head` in front of what a scan writes. */
  function Prefixed(head: seq<byte>, r: Result): Result {
    if r.Wrote? then Wrote(head + r.bytes) else r
  }

  // ---------------------------------------------------------------------------------------------
  // When the scan returns
  // ---------------------------------------------------------------------------------------------

  /** The loop, entered at `pos` with `room` octets of output left, is over after at most `n` iterations. */
  predicate Halts(p: seq<byte>, inlen: nat, pos: nat, room: nat, n: nat)
    requires inlen <= |p|
    decreases n, inlen
  {
    || !More(p, inlen, pos)
    || (n > 0 &&
        if IsPointer(p, inlen, pos) then Halts(p, inlen, Target(p, pos), room, n - 1)
        else room == 0 || Halts(p, inlen, pos + 1, room - 1, n - 1))
  }

  ghost predicate Returns(p: seq<byte>, inlen: nat, pos: nat, room: nat)
    requires inlen <= |p|
  {
    exists n: nat :: Halts(p, inlen, pos, room, n)
  }

  lemma {:induction false} HaltingEnds(p: seq<byte>, inlen: nat, pos: nat, room: nat, n: nat)
    requires inlen <= |p| && Halts(p, inlen, pos, room, n)
    ensures Scan(p, inlen, pos, room) != Loops
    decreases n
  {
    if IsPointer(p, inlen, pos) {
      var t := Target(p, pos);
      HaltingEnds(p, inlen, t, room, n - 1);
      assert Lands(p, inlen, pos, Enough(inlen) + 1);
      EnoughLands(p, inlen, pos, Enough(inlen) + 1);
    } else if More(p, inlen, pos) && room > 0 {
      HaltingEnds(p, inlen, pos + 1, room - 1, n - 1);
    }
  }

  lemma {:induction false} EndingHalts(p: seq<byte>, inlen: nat, pos: nat, room: nat, hops: nat) returns (n: nat)
    requires inlen <= |p| && Lands(p, inlen, pos, hops) && ScanAt(p, inlen, Landing(p, inlen, pos, hops), room) != Loops
    ensures Halts(p, inlen, pos, room, n)
    decreases room, hops
  {
    if IsPointer(p, inlen, pos) {
      n := EndingHalts(p, inlen, Target(p, pos), room, hops - 1);
      n := n + 1;
    } else if More(p, inlen, pos) && room > 0 {
      n := EndingHalts(p, inlen, pos + 1, room - 1, Enough(inlen));
      n := n + 1;
    } else {
      n := 1;
    }
  }

  /**
   * The decompressor returns exactly when no pointer it meets starts a circle, that is, when each leads
   * to something other than a pointer after so many jumps (MAX_HOPS suffice, by EndsSoon).
   */
  lemma ReturnsExactlyWhen(p: seq<byte>, inlen: nat, pos: nat, room: nat)
    requires inlen <= |p|
    ensures Returns(p, inlen, pos, room) <==> Scan(p, inlen, pos, room) != Loops
  {
    if Returns(p, inlen, pos, room) {
      var n: nat :| Halts(p, inlen, pos, room, n);
      HaltingEnds(p, inlen, pos, room, n);
    }
    if Scan(p, inlen, pos, room) != Loops {
      var n := EndingHalts(p, inlen, pos, room, Enough(inlen));
      assert Halts(p, inlen, pos, room, n);
    }
  }

  /** Every pointer met on the way leads strictly backward. */
  predicate Backward(p: seq<byte>, inlen: nat, pos: nat, room: nat)
    requires inlen <= |p|
    decreases room, pos
  {
    More(p, inlen, pos) ==>
      if IsPointer(p, inlen, pos) then Target(p, pos) < pos && Backward(p, inlen, Target(p, pos), room)
      else room > 0 ==> Backward(p, inlen, pos + 1, room - 1)
  }

  /** Strictly backward pointers suffice. */
  lemma {:induction false} BackwardReturns(p: seq<byte>, inlen: nat, pos: nat, room: nat)
    requires inlen <= |p| && Backward(p, inlen, pos, room)
    ensures Scan(p, inlen, pos, room) != Loops && Returns(p, inlen, pos, room)
    decreases room, pos
  {
    if IsPointer(p, inlen, pos) {
      var t := Target(p, pos);
      BackwardReturns(p, inlen, t, room);
      var n: nat :| Halts(p, inlen, t, room, n);
      assert Halts(p, inlen, pos, room, n + 1);
    } else if More(p, inlen, pos) && room > 0 {
      BackwardReturns(p, inlen, pos + 1, room - 1);
      var n: nat :| Halts(p, inlen, pos + 1, room - 1, n);
      assert Halts(p, inlen, pos, room, n + 1);
    } else {
      assert Halts(p, inlen, pos, room, 1);
    }
    ReturnsExactlyWhen(p, inlen, pos, room);
  }

  lemma {:induction false} Spins(p: seq<byte>, inlen: nat, pos: nat, n: nat)
    requires inlen <= |p| && IsPointer(p, inlen, pos) && Target(p, pos) == pos
    ensures !Lands(p, inlen, pos, n)
  {
    if n > 0 {
      Spins(p, inlen, pos, n - 1);
    }
  }

  /** It does not return from a pointer to itself, in whatever packet. */
  lemma SelfPointerSpins(p: seq<byte>, inlen: nat, pos: nat, room: nat)
    requires inlen <= |p| && IsPointer(p, inlen, pos) && Target(p, pos) == pos
    ensures Scan(p, inlen, pos, room) == Loops && !Returns(p, inlen, pos, room)
  {
    Spins(p, inlen, pos, Enough(inlen));
    ReturnsExactlyWhen(p, inlen, pos, room);
  }

  // ---------------------------------------------------------------------------------------------
  // The loop
  // ---------------------------------------------------------------------------------------------

  /**
   * dns_decompress_name.  Termination is by the room left in the output, and then by the jumps left
   * before the chain of pointers at hand ends.
   */
  method DnsDecompressName(p: array<byte>, start: nat, inlen: nat, out: array<byte>) returns (len: int)
    requires inlen <= p.Length && p != out && Scan(p[..], inlen, start, out.Length) != Loops
    modifies out
    ensures match Scan(p[..], inlen, start, out.Length)
            case Wrote(name) => len == |name| <= out.Length && out[..len] == name
            case _ => len == -1
  {
    var ipos: nat, opos: nat := start, 0;
    ghost var packet, hops: nat := p[..], Enough(inlen);
    ScanStart(packet, inlen, start, out.Length);
    assert out[..0] == [];
    while ipos + 1 < inlen && p[ipos] != 0
      invariant p[..] == packet && opos <= out.Length
      invariant Scanning(packet, inlen, start, out.Length, ipos, hops, out[..opos])
      decreases out.Length - opos, hops
    {
      ScanStep(packet, inlen, start, out.Length, ipos, hops, out[..opos]);
      if p[ipos] < POINTER_TAG {
        if opos >= out.Length {
          return -1;
        }
        ghost var done := out[..opos];
        out[opos] := p[ipos];
        assert out[..opos + 1] == done + [packet[ipos]];
        opos, ipos := opos + 1, ipos + 1;
        hops := Enough(inlen);
      } else {
        ipos := (p[ipos] as int * 256 + p[ipos + 1] as int) % 1024;
        hops := hops - 1;
      }
    }
    if opos >= out.Length {
      return -1;
    }
    ghost var done := out[..opos];
    out[opos] := 0;
    assert out[..opos + 1] == done + [0];
    return opos + 1;
  }

  /** The scan is at `pos`, at most `hops` jumps from an octet, with `done` written. */
  ghost predicate Scanning(p: seq<byte>, inlen: nat, start: nat, size: nat, pos: nat, hops: nat, done: seq<byte>) {
    && inlen <= |p| && |done| <= size && Lands(p, inlen, pos, hops)
    && Scan(p, inlen, start, size) != Loops
    && Scan(p, inlen, start, size) == Prefixed(done, ScanAt(p, inlen, Landing(p, inlen, pos, hops), size - |done|))
  }

  lemma ScanStart(p: seq<byte>, inlen: nat, start: nat, size: nat)
    requires inlen <= |p| && Scan(p, inlen, start, size) != Loops
    ensures Scanning(p, inlen, start, size, start, Enough(inlen), [])
  {
    PrefixNothing(Scan(p, inlen, start, size));
  }

  lemma ScanStep(p: seq<byte>, inlen: nat, start: nat, size: nat, pos: nat, hops: nat, done: seq<byte>)
    requires Scanning(p, inlen, start, size, pos, hops, done) && More(p, inlen, pos)
    ensures p[pos] >= POINTER_TAG ==> hops > 0 && Scanning(p, inlen, start, size, Target(p, pos), hops - 1, done)
    ensures p[pos] < POINTER_TAG ==>
              if |done| == size then Scan(p, inlen, start, size) == Full
              else Scanning(p, inlen, start, size, pos + 1, Enough(inlen), done + [p[pos]])
  {
    if p[pos] < POINTER_TAG && |done| < size {
      PrefixTwice(done, [p[pos]], Scan(p, inlen, pos + 1, size - |done| - 1));
    }
  }

  lemma PrefixNothing(r: Result)
    ensures Prefixed([], r) == r
  {
    if r.Wrote? {
      assert [] + r.bytes == r.bytes;
    }
  }

  lemma PrefixTwice(a: seq<byte>, b: seq<byte>, r: Result)
    ensures Prefixed(a, Prefixed(b, r)) == Prefixed(a + b, r)
  {
    if r.Wrote? {
      assert a + (b + r.bytes) == (a + b) + r.bytes;
    }
  }

  // ---------------------------------------------------------------------------------------------
  // Label structure
  // ---------------------------------------------------------------------------------------------

  /** Octets that a scan copies: neither a terminator nor taken for a pointer. */
  predicate Plain(p: seq<byte>, from: nat, to: nat)
    requires from <= to <= |p|
  {
    forall i :: from <= i < to ==> 1 <= p[i] < POINTER_TAG
  }

  /** The offset of a pointer as the standard defines it: fourteen bits. */
  function Offset(p: seq<byte>, pos: nat): int
    requires pos + 1 < |p|
  {
    Word(p[pos], p[pos + 1]) - POINTER_TAG * 256
  }

  /** The code follows a pointer to where the standard says exactly when that is below 1024. */
  lemma TargetExactlyWhen(p: seq<byte>, pos: nat)
    requires pos + 1 < |p| && p[pos] >= POINTER_TAG
    ensures Target(p, pos) == Offset(p, pos) <==> Offset(p, pos) < MAX_HOPS
  {
    assert Word(p[pos], p[pos + 1]) == 48 * MAX_HOPS + Offset(p, pos);
  }

  /**
   * The name at `pos` consists of the labels `ls`: a zero octet, or a label of up to 63 octets and the
   * rest of the name, or a pointer to an earlier place where the name continues.  Two restrictions are
   * the code's own: characters must be below 0xC0, and pointers below 1024.
   */
  ghost predicate Denotes(p: seq<byte>, inlen: nat, pos: nat, ls: seq<seq<byte>>)
    requires inlen <= |p|
    decreases |ls|, pos
  {
    && pos < inlen
    && if p[pos] == 0 then ls == []
       else if p[pos] >= POINTER_TAG then
         pos + 1 < inlen && Offset(p, pos) < MAX_HOPS && Offset(p, pos) < pos && Denotes(p, inlen, Offset(p, pos), ls)
       else
         var n := p[pos] as int;
         && n <= 63 && pos + 1 + n < inlen && Plain(p, pos + 1, pos + 1 + n)
         && ls != [] && ls[0] == p[pos + 1..pos + 1 + n]
         && Denotes(p, inlen, pos + 1 + n, ls[1..])
  }

  lemma {:induction false} DenotesGood(p: seq<byte>, inlen: nat, pos: nat, ls: seq<seq<byte>>)
    requires inlen <= |p| && Denotes(p, inlen, pos, ls)
    ensures GoodLabels(ls)
    decreases |ls|, pos
  {
    if p[pos] >= POINTER_TAG {
      DenotesGood(p, inlen, Offset(p, pos), ls);
    } else if p[pos] != 0 {
      DenotesGood(p, inlen, pos + 1 + p[pos] as int, ls[1..]);
      assert ls == [ls[0]] + ls[1..];
    }
  }

  /** Pointers to earlier places lead to an octet that is part of the name. */
  lemma {:induction false} DenotesLands(p: seq<byte>, inlen: nat, pos: nat, ls: seq<seq<byte>>)
    requires inlen <= |p| && Denotes(p, inlen, pos, ls)
    ensures Lands(p, inlen, pos, pos)
    ensures var q := Landing(p, inlen, pos, pos); Denotes(p, inlen, q, ls) && p[q] < POINTER_TAG
    decreases pos
  {
    if p[pos] >= POINTER_TAG {
      var t := Offset(p, pos);
      assert Word(p[pos], p[pos + 1]) == 48 * MAX_HOPS + t;
      assert Target(p, pos) == t;
      DenotesLands(p, inlen, t, ls);
      BoundIrrelevant(p, inlen, t, t, pos - 1);
    }
  }

  /** A plain octet is copied. */
  lemma PlainOctet(p: seq<byte>, inlen: nat, pos: nat, room: nat)
    requires inlen <= |p| && pos + 1 < inlen && Plain(p, pos, pos + 1)
    ensures Scan(p, inlen, pos, room) == if room == 0 then Full else Prefixed([p[pos]], Scan(p, inlen, pos + 1, room - 1))
  {
    assert !IsPointer(p, inlen, pos) && Landing(p, inlen, pos, Enough(inlen)) == pos;
  }

  /** What a scan of `k` plain octets comes to, told from the scan after them. */
  function Copied(p: seq<byte>, pos: nat, k: nat, room: nat, after: Result): Result
    requires pos + k <= |p|
  {
    if k > room then Full else Prefixed(p[pos..pos + k], after)
  }

  lemma CopiedOneMore(p: seq<byte>, pos: nat, k: nat, room: nat, after: Result)
    requires 0 < k && pos + k <= |p| && room > 0
    ensures Prefixed([p[pos]], Copied(p, pos + 1, k - 1, room - 1, after)) == Copied(p, pos, k, room, after)
  {
    if k <= room {
      assert p[pos..pos + k] == [p[pos]] + p[pos + 1..pos + k];
      PrefixTwice([p[pos]], p[pos + 1..pos + k], after);
    }
  }

  lemma CopiedNothing(p: seq<byte>, pos: nat, room: nat, after: Result)
    requires pos <= |p|
    ensures Copied(p, pos, 0, room, after) == after
  {
    assert p[pos..pos] == [];
    PrefixNothing(after);
  }

  /** A stretch of plain octets is copied one by one, or fills the output. */
  lemma {:induction false} PlainScan(p: seq<byte>, inlen: nat, pos: nat, k: nat, room: nat)
    requires inlen <= |p| && pos + k < inlen && Plain(p, pos, pos + k)
    ensures Scan(p, inlen, pos, room) == Copied(p, pos, k, room, if k > room then Full else Scan(p, inlen, pos + k, room - k))
    decreases k
  {
    var after := if k > room then Full else Scan(p, inlen, pos + k, room - k);
    if k == 0 {
      CopiedNothing(p, pos, room, after);
    } else {
      PlainOctet(p, inlen, pos, room);
      if room > 0 {
        PlainScan(p, inlen, pos + 1, k - 1, room - 1);
        CopiedOneMore(p, pos, k, room, after);
      }
    }
  }

  /** The octets of the name, if there is room for them. */
  function Fitted(w: seq<byte>, room: nat): Result {
    if |w| <= room then Wrote(w) else Full
  }

  /** A scan that lands on `q` first is a scan from `q`. */
  lemma ScanLands(p: seq<byte>, inlen: nat, pos: nat, n: nat, room: nat)
    requires inlen <= |p| && Lands(p, inlen, pos, n)
    ensures Scan(p, inlen, pos, room) == Scan(p, inlen, Landing(p, inlen, pos, n), room)
  {
    EnoughLands(p, inlen, pos, n);
    var q := Landing(p, inlen, pos, n);
    assert Landing(p, inlen, q, Enough(inlen)) == q;
  }

  /**
   * Decompressing a well-formed name returns, and writes the same octets as expanding its labels and
   * pointers by the standard, whenever they fit; when they do not, it reports so.
   */
  lemma {:induction false} DecompressionExpands(p: seq<byte>, inlen: nat, pos: nat, ls: seq<seq<byte>>, room: nat)
    requires inlen <= |p| && Denotes(p, inlen, pos, ls)
    ensures GoodLabels(ls) && Scan(p, inlen, pos, room) == Fitted(Wire(ls), room)
    decreases |ls|, 1
  {
    DenotesGood(p, inlen, pos, ls);
    DenotesLands(p, inlen, pos, ls);
    var q := Landing(p, inlen, pos, pos);
    ScanLands(p, inlen, pos, pos, room);
    if p[q] != 0 {
      LabelScan(p, inlen, q, ls, room);
    }
  }

  lemma {:induction false} LabelScan(p: seq<byte>, inlen: nat, q: nat, ls: seq<seq<byte>>, room: nat)
    requires inlen <= |p| && Denotes(p, inlen, q, ls) && 0 < p[q] < POINTER_TAG && GoodLabels(ls)
    ensures Scan(p, inlen, q, room) == Fitted(Wire(ls), room)
    decreases |ls|, 0
  {
    var k, rest := SplitLabel(p, inlen, q, ls);
    if k <= room {
      DecompressionExpands(p, inlen, q + k, rest, room - k);
    }
    CopiedThenFitted(p, inlen, q, k, Wire(rest), room);
  }

  /** A stretch of plain octets, and what the scan after them writes. */
  lemma CopiedThenFitted(p: seq<byte>, inlen: nat, pos: nat, k: nat, w: seq<byte>, room: nat)
    requires inlen <= |p| && pos + k < inlen && Plain(p, pos, pos + k)
    requires k <= room ==> Scan(p, inlen, pos + k, room - k) == Fitted(w, room - k)
    ensures Scan(p, inlen, pos, room) == Fitted(p[pos..pos + k] + w, room)
  {
    PlainScan(p, inlen, pos, k, room);
    CopiedFitted(p, pos, k, w, room);
  }

  lemma CopiedFitted(p: seq<byte>, pos: nat, k: nat, w: seq<byte>, room: nat)
    requires pos + k <= |p|
    ensures Copied(p, pos, k, room, if k > room then Full else Fitted(w, room - k)) == Fitted(p[pos..pos + k] + w, room)
  {
  }

  /** A label with its length octet is a stretch of plain octets; the rest of the name follows. */
  lemma SplitLabel(p: seq<byte>, inlen: nat, q: nat, ls: seq<seq<byte>>) returns (k: nat, rest: seq<seq<byte>>)
    requires inlen <= |p| && Denotes(p, inlen, q, ls) && 0 < p[q] < POINTER_TAG && GoodLabels(ls)
    ensures q + k < inlen && Plain(p, q, q + k) && |rest| < |ls| && GoodLabels(rest)
    ensures Denotes(p, inlen, q + k, rest) && Wire(ls) == p[q..q + k] + Wire(rest)
  {
    k, rest := p[q] as int + 1, ls[1..];
    DenotesGood(p, inlen, q + k, rest);
    assert p[q..q + k] == [p[q]] + ls[0];
  }

  /** On an uncompressed name whose octets are all below 0xC0 the decompressor is the identity. */
  lemma PlainNameUnchanged(p: seq<byte>, pos: nat, k: nat, inlen: nat, room: nat)
    requires pos + k < inlen <= |p| && Plain(p, pos, pos + k) && p[pos + k] == 0 && k < room
    ensures Scan(p, inlen, pos, room) == Wrote(p[pos..pos + k + 1])
  {
    PlainScan(p, inlen, pos, k, room);
    assert Landing(p, inlen, pos + k, Enough(inlen)) == pos + k;
    assert p[pos..pos + k] + [0] == p[pos..pos + k + 1];
  }

  /** The wire form of a name ends in its only zero, if no character is zero. */
  lemma {:induction false} WirePlain(ls: seq<seq<byte>>)
    requires GoodLabels(ls)
    requires forall k :: 0 <= k < |ls| ==> |ls[k]| < POINTER_TAG && Plain(ls[k], 0, |ls[k]|)
    ensures |Wire(ls)| >= 1 && Wire(ls)[|Wire(ls)| - 1] == 0 && Plain(Wire(ls), 0, |Wire(ls)| - 1)
  {
    if ls != [] {
      WirePlain(ls[1..]);
      var w := Wire(ls);
      var t := Wire(ls[1..]);
      assert w == [|ls[0]|] + ls[0] + t;
      forall i | 0 <= i < |w| - 1
        ensures 1 <= w[i] < POINTER_TAG
      {
        if i > |ls[0]| {
          assert w[i] == t[i - 1 - |ls[0]|];
        } else if i > 0 {
          assert w[i] == ls[0][i - 1];
        }
      }
      assert w[|w| - 1] == t[|t| - 1];
    }
  }

  /** Encoding a host name and decompressing the result gives the encoding back. */
  lemma EncodedUnchanged(h: seq<byte>, room: nat)
    requires GoodLabels(Labels(h)) && |Wire(Labels(h))| <= room
    requires forall k :: 0 <= k < |Labels(h)| ==> |Labels(h)[k]| < POINTER_TAG && Plain(Labels(h)[k], 0, |Labels(h)[k]|)
    ensures var w := Wire(Labels(h)); Scan(w, |w|, 0, room) == Wrote(w)
  {
    var w := Wire(Labels(h));
    WirePlain(Labels(h));
    PlainNameUnchanged(w, 0, |w| - 1, |w|, room);
    assert w[0..|w|] == w;
  }
}
