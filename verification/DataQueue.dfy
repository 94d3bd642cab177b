/** The per-stream byte queue (src/util.c:457-509): a fixed buffer updated in place. */
module DataQueues {
  import opened Bytes
  import opened Socks

  class DataQueue {
    const arr: array<byte>
    var len: nat

    ghost predicate Valid()
      reads this
    {
      arr.Length == CAPACITY && len <= CAPACITY
    }

    /** The bytes waiting in the queue, oldest first. */
    ghost function Contents(): seq<byte>
      requires Valid()
      reads this, arr
    {
      arr[..len]
    }

    constructor ()
      ensures Valid() && fresh(arr) && Contents() == []
    {
      arr := new byte[CAPACITY](_ => 0);
      len := 0;
    }

    method Reset()
      requires Valid()
      modifies this`len
      ensures Valid() && Contents() == []
    {
      len := 0;
    }

    /** Appends `bytes` when they fit and refuses, changing nothing, when they do not. */
    method Push(bytes: seq<byte>) returns (ok: bool)
      requires Valid()
      modifies this`len, arr
      ensures Valid() && (ok <==> |old(Contents())| + |bytes| <= CAPACITY)
      ensures Contents() == if ok then old(Contents()) + bytes else old(Contents())
    {
      if len + |bytes| > arr.Length {
        return false;
      }
      forall i | 0 <= i < |bytes| {
        arr[len + i] := bytes[i];
      }
      len := len + |bytes|;
      assert arr[..len] == old(arr[..len]) + bytes;
      return true;
    }

    method Set(bytes: seq<byte>) returns (ok: bool)
      requires Valid()
      modifies this`len, arr
      ensures Valid() && (ok <==> |bytes| <= CAPACITY)
      ensures Contents() == if ok then bytes else []
    {
      Reset();
      ok := Push(bytes);
    }

    /**
     * Hands the queue to send(), which answers `taken`: an error when negative, else the number of
     * leading bytes it accepted.  Exactly those bytes leave; the rest keep their order.
     */
    method Shift(taken: int) returns (ok: bool, sent: seq<byte>)
      requires Valid() && taken <= len
      modifies this`len, arr
      ensures Valid() && (ok <==> taken >= 0)
      ensures sent + Contents() == old(Contents())
      ensures |sent| == if ok then taken else 0
    {
      if taken < 0 {
        return false, [];
      }
      sent := arr[..taken];
      ghost var was := arr[..len];
      len := len - taken;
      for i := 0 to len
        invariant Valid() && len + taken == |was|
        invariant forall k :: 0 <= k < i ==> arr[k] == was[taken + k]
        invariant forall k :: i <= k < len + taken ==> arr[k] == was[k]
      {
        arr[i] := arr[taken + i];
      }
      assert sent + arr[..len] == was;
      return true, sent;
    }
  }
}
