/**
 * Host names and their wire form (lib/dns.c:16-52, 111-141; sections 3.1 and 4.1.4 of RFC 1035).
 * A host name is a string without NUL; a packet is a sequence of octets.
 */
module DnsNames {
  import opened Bytes

  const DOT: byte := 46
  const POINTER_TAG := 0xC0

  // ---------------------------------------------------------------------------------------------
  // Labels
  // ---------------------------------------------------------------------------------------------

  /** The position of the first dot, or the length when there is none. */
  function FirstDot(h: seq<byte>): (n: nat)
    ensures n <= |h| && DOT !in h[..n] && (n < |h| ==> h[n] == DOT)
  {
    if h == [] then 0
    else if h[0] == DOT then 0
    else
      assert h[..FirstDot(h[1..]) + 1] == [h[0]] + h[1..][..FirstDot(h[1..])];
      FirstDot(h[1..]) + 1
  }

  /** The labels of a name; a dot at the very end opens no further label. */
  function Labels(h: seq<byte>): seq<seq<byte>>
    decreases |h|
  {
    if h == [] then []
    else
      var n := FirstDot(h);
      [h[..n]] + (if n < |h| then Labels(h[n + 1..]) else [])
  }

  predicate GoodLabels(ls: seq<seq<byte>>) {
    forall k :: 0 <= k < |ls| ==> 1 <= |ls[k]| <= 255
  }

  /** Length octet and characters of each label, and the zero octet of the root. */
  function Wire(ls: seq<seq<byte>>): seq<byte>
    requires GoodLabels(ls)
  {
    if ls == [] then [0] else [|ls[0]|] + ls[0] + Wire(ls[1..])
  }

  /** The labels with dots between them. */
  function Join(ls: seq<seq<byte>>): seq<byte> {
    if ls == [] then [] else if |ls| == 1 then ls[0] else ls[0] + [DOT] + Join(ls[1..])
  }

  predicate EndsWithDot(h: seq<byte>) {
    h != [] && h[|h| - 1] == DOT
  }

  lemma AfterDot(h: seq<byte>)
    requires h != [] && !EndsWithDot(h) && FirstDot(h) < |h|
    ensures var rest := h[FirstDot(h) + 1..];
      rest != [] && !EndsWithDot(rest) && h == h[..FirstDot(h)] + [DOT] + rest && Labels(rest) != []
  {
    var n := FirstDot(h);
    assert n != |h| - 1;
    var rest := h[n + 1..];
    assert rest[|rest| - 1] == h[|h| - 1];
  }

  /** A name without a dot at its end is what its labels spell. */
  lemma {:induction false} JoinLabels(h: seq<byte>)
    requires !EndsWithDot(h)
    ensures Join(Labels(h)) == h
    decreases |h|
  {
    if h != [] {
      var n := FirstDot(h);
      if n < |h| {
        AfterDot(h);
        JoinLabels(h[n + 1..]);
        assert Labels(h)[1..] == Labels(h[n + 1..]);
      } else {
        assert h[..n] == h;
      }
    }
  }

  lemma {:induction false} DotFirst(x: seq<byte>, rest: seq<byte>)
    requires DOT !in x
    ensures FirstDot(x + [DOT] + rest) == |x|
    decreases |x|
  {
    if x != [] {
      assert (x + [DOT] + rest)[1..] == x[1..] + [DOT] + rest;
      DotFirst(x[1..], rest);
    }
  }

  lemma NoDot(x: seq<byte>)
    requires DOT !in x
    ensures FirstDot(x) == |x|
  {
  }

  /** The first label ends at the first dot. */
  lemma LabelsMore(x: seq<byte>, rest: seq<byte>)
    requires DOT !in x
    ensures Labels(x + [DOT] + rest) == [x] + Labels(rest)
  {
    DotFirst(x, rest);
    var h := x + [DOT] + rest;
    assert h[..|x|] == x && h[|x| + 1..] == rest;
  }

  lemma OneLabel(x: seq<byte>)
    requires x != [] && DOT !in x
    ensures Labels(x) == [x]
  {
    NoDot(x);
    assert x[..|x|] == x;
  }

  /** Labels with dots between them are told apart again. */
  lemma {:induction false} LabelsOfJoin(ls: seq<seq<byte>>)
    requires ls != [] && forall k :: 0 <= k < |ls| ==> ls[k] != [] && DOT !in ls[k]
    ensures Labels(Join(ls)) == ls
    decreases |ls|
  {
    if |ls| == 1 {
      OneLabel(ls[0]);
      assert ls == [ls[0]];
    } else {
      LabelsOfJoin(ls[1..]);
      LabelsMore(ls[0], Join(ls[1..]));
      assert ls == [ls[0]] + ls[1..];
    }
  }

  /** A dot at the end of a name makes no difference. */
  lemma {:induction false} FinalDotIgnored(h: seq<byte>)
    requires h != [] && !EndsWithDot(h)
    ensures Labels(h + [DOT]) == Labels(h)
    decreases |h|
  {
    var n := FirstDot(h);
    if n < |h| {
      AfterDot(h);
      var x, rest := h[..n], h[n + 1..];
      FinalDotIgnored(rest);
      LabelsMore(x, rest + [DOT]);
      LabelsMore(x, rest);
      assert h + [DOT] == x + [DOT] + (rest + [DOT]);
    } else {
      assert h[..n] == h;
      OneLabel(h);
      LabelsMore(h, []);
      assert h + [DOT] + [] == h + [DOT] && [h] + [] == [h];
    }
  }

  /**
   * The caller's guess that the wire form is two octets longer than the name is right exactly for
   * non-empty names without a dot at their end (lib/dns.c:435).
   */
  lemma {:induction false} WireLength(h: seq<byte>)
    requires GoodLabels(Labels(h))
    ensures |Wire(Labels(h))| == |h| + (if h == [] || EndsWithDot(h) then 1 else 2)
    decreases |h|
  {
    if h != [] {
      var n, rest := FirstDot(h), AfterLabel(h);
      FirstLabel(h);
      assert Labels(h)[1..] == Labels(rest);
      WireLength(rest);
      if rest != [] {
        assert rest[|rest| - 1] == h[|h| - 1];
      }
    }
  }

  lemma LengthGuessExact(h: seq<byte>)
    requires GoodLabels(Labels(h))
    ensures |Wire(Labels(h))| == |h| + 2 <==> h != [] && !EndsWithDot(h)
  {
    WireLength(h);
  }

  /** Reading labels back off the wire. */
  function ReadLabels(w: seq<byte>): Option<seq<seq<byte>>>
    decreases |w|
  {
    if w == [] then None
    else if w[0] == 0 then Some([])
    else if |w| < 1 + w[0] as int then None
    else
      match ReadLabels(w[1 + w[0] as int..])
      case None => None
      case Some(ls) => Some([w[1..1 + w[0] as int]] + ls)
  }

  lemma {:induction false} WireReadsBack(ls: seq<seq<byte>>)
    requires GoodLabels(ls)
    ensures ReadLabels(Wire(ls)) == Some(ls)
  {
    if ls != [] {
      var w := Wire(ls);
      var n := |ls[0]|;
      assert w[0] == n && w[1..1 + n] == ls[0] && w[1 + n..] == Wire(ls[1..]);
      WireReadsBack(ls[1..]);
      assert ls == [ls[0]] + ls[1..];
    }
  }

  /** Encoding and reading back yields the host name. */
  lemma HostnameRoundTrip(h: seq<byte>)
    requires GoodLabels(Labels(h)) && !EndsWithDot(h)
    ensures ReadLabels(Wire(Labels(h))).Some? && Join(ReadLabels(Wire(Labels(h))).value) == h
  {
    WireReadsBack(Labels(h));
    JoinLabels(h);
  }

  // ---------------------------------------------------------------------------------------------
  // Encoding
  // ---------------------------------------------------------------------------------------------

  /** What is left of a name after its first label and the dot. */
  function AfterLabel(h: seq<byte>): seq<byte> {
    if FirstDot(h) < |h| then h[FirstDot(h) + 1..] else []
  }

  /** `done` has been written, and the labels of `rest` are still to follow. */
  ghost predicate Encoding(h: seq<byte>, rest: seq<byte>, done: seq<byte>) {
    && (GoodLabels(Labels(h)) <==> GoodLabels(Labels(rest)))
    && (GoodLabels(Labels(h)) ==> Wire(Labels(h)) == done + Wire(Labels(rest)))
  }

  lemma FirstLabel(rest: seq<byte>)
    requires rest != []
    ensures var n := FirstDot(rest);
      && Labels(rest) == [rest[..n]] + Labels(AfterLabel(rest))
      && (GoodLabels(Labels(rest)) <==> 1 <= n <= 255 && GoodLabels(Labels(AfterLabel(rest))))
  {
    GoodCons(rest[..FirstDot(rest)], Labels(AfterLabel(rest)));
  }

  lemma GoodCons(x: seq<byte>, ls: seq<seq<byte>>)
    ensures GoodLabels([x] + ls) <==> 1 <= |x| <= 255 && GoodLabels(ls)
  {
    var all := [x] + ls;
    forall k | 0 <= k < |ls|
      ensures all[k + 1] == ls[k]
    {
    }
    assert all[0] == x;
  }

  lemma EncodeStep(h: seq<byte>, rest: seq<byte>, done: seq<byte>)
    requires Encoding(h, rest, done) && rest != []
    ensures var n := FirstDot(rest);
      && (GoodLabels(Labels(h)) ==> 1 <= n <= 255 && |Wire(Labels(h))| >= |done| + n + 2)
      && (1 <= n <= 255 ==> Encoding(h, AfterLabel(rest), done + [n] + rest[..n]))
  {
    FirstLabel(rest);
    var n := FirstDot(rest);
    var ls := Labels(rest);
    if GoodLabels(ls) {
      assert ls[0] == rest[..n] && ls[1..] == Labels(AfterLabel(rest));
      assert Wire(ls) == [n] + rest[..n] + Wire(ls[1..]);
      assert done + Wire(ls) == (done + [n] + rest[..n]) + Wire(ls[1..]);
    }
  }

  /** The name can be written in `size` octets. */
  predicate Encodes(h: seq<byte>, size: nat) {
    GoodLabels(Labels(h)) && |Wire(Labels(h))| <= size
  }

  /**
   * dns_encode_hostname: succeeds exactly when no label is empty or too long and the wire form fits,
   * and then writes the wire form and nothing after it.
   */
  method DnsEncodeHostname(h: seq<byte>, out: array<byte>) returns (ok: bool, ghost len: nat)
    modifies out
    ensures ok <==> Encodes(h, out.Length)
    ensures ok ==> len == |Wire(Labels(h))| && out[..len] == Wire(Labels(h)) && out[len..] == old(out[len..])
  {
    var rest, o: nat := h, 0;
    assert out[..0] == [];
    EncodeStart(h);
    while o < out.Length
      invariant o <= out.Length && Encoding(h, rest, out[..o]) && out[o..] == old(out[o..])
      decreases out.Length - o
    {
      if rest == [] {
        ghost var done := out[..o];
        EncodeEnd(h, done);
        out[o] := 0;
        assert out[..o + 1] == done + [0] && out[o + 1..] == old(out[o + 1..]);
        return true, o + 1;
      }
      ok, rest, o := EncodeLabel(h, rest, out, o);
      if !ok {
        return false, 0;
      }
    }
    WireLonger(h, rest, out[..o]);
    return false, 0;
  }

  lemma EncodeStart(h: seq<byte>)
    ensures Encoding(h, h, [])
  {
    if GoodLabels(Labels(h)) {
      assert [] + Wire(Labels(h)) == Wire(Labels(h));
    }
  }

  lemma EncodeEnd(h: seq<byte>, done: seq<byte>)
    requires Encoding(h, [], done)
    ensures GoodLabels(Labels(h)) && Wire(Labels(h)) == done + [0]
  {
  }

  lemma WireLonger(h: seq<byte>, rest: seq<byte>, done: seq<byte>)
    requires Encoding(h, rest, done)
    ensures !Encodes(h, |done|)
  {
    WireNonEmpty(Labels(rest));
  }

  /** One turn of the loop: the next label is written, unless it is empty, too long or does not fit. */
  method EncodeLabel(ghost h: seq<byte>, rest: seq<byte>, out: array<byte>, o: nat) returns (ok: bool, next: seq<byte>, o': nat)
    requires rest != [] && o < out.Length && Encoding(h, rest, out[..o])
    modifies out
    ensures if ok then o < o' <= out.Length && Encoding(h, next, out[..o']) && out[o'..] == old(out[o'..]) else !Encodes(h, out.Length)
  {
    var n := FirstDot(rest);
    EncodeStep(h, rest, out[..o]);
    if n == 0 || n > 255 || o + n + 1 > out.Length {
      return false, rest, o;
    }
    o' := o + n + 1;
    ghost var done, tail := out[..o], out[o'..];
    ghost var before := out[..];
    assert before[o..][n + 1..] == tail;
    PutLabel(rest[..n], out, o);
    assert out[..o'] == done + [n] + rest[..n];
    ok, next := true, AfterLabel(rest);
  }

  /** The length octet and the characters of one label. */
  method PutLabel(text: seq<byte>, out: array<byte>, o: nat)
    requires |text| <= 255 && o + |text| + 1 <= out.Length
    modifies out
    ensures out[..o + |text| + 1] == old(out[..o]) + [|text|] + text
    ensures out[o + |text| + 1..] == old(out[o + |text| + 1..])
  {
    out[o] := |text|;
    forall k | 0 <= k < |text| {
      out[o + 1 + k] := text[k];
    }
    assert out[..o] == old(out[..o]);
  }

  lemma WireNonEmpty(ls: seq<seq<byte>>)
    ensures GoodLabels(ls) ==> |Wire(ls)| >= 1
  {
  }
}
