/**
 The outgoing message queue: a head/tail linked list with a message and a byte counter
 (src/ws_internal.h and the copies in src/ws_client.c, src/ws_client_v2.c and src/ws_pool.c).
 */
module SendQueue {
  import opened Common

  const INT_LIMIT := 0x8000_0000
  const UINT_LIMIT := 0x1_0000_0000

  /** The payload bytes of a queue. */
  function Bytes(q: seq<Msg>): nat {
    if q == [] then 0 else Bytes(q[..|q| - 1]) + |q[|q| - 1].payload|
  }

  lemma {:induction false} BytesAppend(p: seq<Msg>, q: seq<Msg>)
    ensures Bytes(p + q) == Bytes(p) + Bytes(q)
  {
    if q == [] {
      assert p + q == p;
    } else {
      assert (p + q)[..|p + q| - 1] == p + q[..|q| - 1];
      BytesAppend(p, q[..|q| - 1]);
    }
  }

  lemma BytesTail(q: seq<Msg>)
    requires q != []
    ensures Bytes(q) == |q[0].payload| + Bytes(q[1..])
  {
    BytesAppend(q[..1], q[1..]);
    assert q[..1] + q[1..] == q;
    assert Bytes(q[..1]) == |q[0].payload|;
  }

  /** Zero stands for no limit. */
  datatype Limits = Limits(maxMsgs: nat, maxBytes: nat)

  ghost predicate Within(l: Limits, q: seq<Msg>) {
    && (l.maxMsgs != 0 ==> |q| <= l.maxMsgs)
    && (l.maxBytes != 0 ==> Bytes(q) <= l.maxBytes)
  }

  /** A queue takes a message exactly when the longer queue is still within the limits. */
  ghost predicate Accepts(l: Limits, q: seq<Msg>, m: Msg) {
    Within(l, q) && Within(l, q + [m])
  }

  /** The flow control of v1 and the pool, on the counters. */
  predicate OverLimit(l: Limits, msgs: nat, bytes: nat, len: nat) {
    || (l.maxMsgs != 0 && msgs >= l.maxMsgs)
    || (l.maxBytes != 0 && bytes + len > l.maxBytes)
  }

  /** The flow control of v1 and the pool on the counters of a queue that keeps the limits. */
  lemma OverLimitIff(l: Limits, q: seq<Msg>, m: Msg)
    requires Within(l, q)
    ensures OverLimit(l, |q|, Bytes(q), |m.payload|) <==> !Accepts(l, q, m)
  {
    BytesAppend(q, [m]);
    assert Bytes([m]) == |m.payload|;
  }

  /** A size_t cast to int on a 64-bit machine: the low 32 bits, as two's complement. */
  function AsInt(n: nat): int {
    var low := n % UINT_LIMIT;
    if low < INT_LIMIT then low else low - UINT_LIMIT
  }

  /** The flow control of v2, which casts both sums to int. */
  predicate OverLimitV2(l: Limits, msgs: nat, bytes: nat, len: nat) {
    || (l.maxMsgs > 0 && AsInt(msgs) >= l.maxMsgs)
    || (l.maxBytes > 0 && AsInt(bytes + len) > l.maxBytes)
  }

  /**
   Where v2 lets a message through that is over the limit: the byte sum, taken modulo 2^32,
   comes out negative as an int, or small again.
   */
  predicate CastHidesOverflow(l: Limits, msgs: nat, bytes: nat, len: nat) {
    var low := (bytes + len) % UINT_LIMIT;
    && (l.maxMsgs == 0 || msgs < l.maxMsgs)
    && l.maxBytes != 0 && bytes + len > l.maxBytes
    && (low <= l.maxBytes || low >= INT_LIMIT)
  }

  lemma AsIntBelow(n: nat)
    requires n < INT_LIMIT
    ensures AsInt(n) == n
  {
  }

  lemma CountersDisagreeIff(l: Limits, msgs: nat, bytes: nat, len: nat)
    requires l.maxMsgs < INT_LIMIT && l.maxBytes < INT_LIMIT && msgs < INT_LIMIT
    ensures OverLimitV2(l, msgs, bytes, len) <==>
              OverLimit(l, msgs, bytes, len) && !CastHidesOverflow(l, msgs, bytes, len)
    ensures bytes + len < INT_LIMIT ==> !CastHidesOverflow(l, msgs, bytes, len)
  {
    AsIntBelow(msgs);
    if bytes + len < INT_LIMIT {
      AsIntBelow(bytes + len);
      assert (bytes + len) % UINT_LIMIT == bytes + len;
    }
  }

  /** v2 refuses what the limits call for, and only that, exactly when the cast hides no overflow. */
  lemma V2FlowControlIff(l: Limits, q: seq<Msg>, m: Msg)
    requires Within(l, q) && l.maxMsgs < INT_LIMIT && l.maxBytes < INT_LIMIT && |q| < INT_LIMIT
    ensures (OverLimitV2(l, |q|, Bytes(q), |m.payload|) <==> !Accepts(l, q, m))
            <==> !CastHidesOverflow(l, |q|, Bytes(q), |m.payload|)
  {
    OverLimitIff(l, q, m);
    CountersDisagreeIff(l, |q|, Bytes(q), |m.payload|);
  }

  class Node {
    const msg: Msg
    var next: Node?

    constructor (msg: Msg)
      ensures this.msg == msg && next == null
    {
      this.msg := msg;
      next := null;
    }
  }

  ghost function Messages(spine: seq<Node>): (q: seq<Msg>)
    ensures |q| == |spine| && forall i :: 0 <= i < |q| ==> q[i] == spine[i].msg
  {
    seq(|spine|, i requires 0 <= i < |spine| => spine[i].msg)
  }

  lemma HeadOff(spine: seq<Node>)
    requires spine != []
    ensures Messages(spine) == [spine[0].msg] + Messages(spine[1..])
    ensures Bytes(Messages(spine)) == |spine[0].msg.payload| + Bytes(Messages(spine[1..]))
  {
    BytesTail(Messages(spine));
    assert Messages(spine)[1..] == Messages(spine[1..]);
  }

  /** No node comes twice, and each points to the one after it. */
  ghost predicate Chained(spine: seq<Node>)
    reads spine
  {
    && (forall i, j :: 0 <= i < j < |spine| ==> spine[i] != spine[j])
    && (forall i :: 0 <= i < |spine| - 1 ==> spine[i].next == spine[i + 1])
  }

  lemma ChainTail(spine: seq<Node>)
    requires spine != [] && Chained(spine)
    ensures Chained(spine[1..])
    ensures |spine| > 1 ==> spine[0].next == spine[1] == spine[1..][0] && spine[1..][|spine| - 2] == spine[|spine| - 1]
  {
  }

  lemma LastOn(spine: seq<Node>, node: Node)
    ensures Messages(spine + [node]) == Messages(spine) + [node.msg]
    ensures Bytes(Messages(spine + [node])) == Bytes(Messages(spine)) + |node.msg.payload|
  {
    BytesAppend(Messages(spine), [node.msg]);
    assert Messages(spine + [node]) == Messages(spine) + [node.msg];
    assert Bytes([node.msg]) == |node.msg.payload|;
  }

  class SendQueue {
    var head: Node?
    var tail: Node?
    var msgs: nat
    var bytes: nat
    ghost var spine: seq<Node>

    ghost predicate Valid()
      reads this, spine
    {
      && Chained(spine)
      && (if spine == [] then head == null && tail == null
          else head == spine[0] && tail == spine[|spine| - 1] && tail.next == null)
      && msgs == |spine| && bytes == Bytes(Messages(spine))
    }

    ghost function Contents(): seq<Msg>
      reads this
    {
      Messages(spine)
    }

    constructor ()
      ensures Valid() && Contents() == [] && spine == []
    {
      head, tail, msgs, bytes, spine := null, null, 0, 0, [];
    }

    /** Links a fresh node behind the tail. */
    method Link(node: Node)
      requires Valid() && node !in spine && node.next == null
      modifies this, spine
      ensures Valid() && spine == old(spine) + [node]
      ensures Contents() == old(Contents()) + [node.msg]
    {
      LastOn(spine, node);
      if tail != null {
        tail.next := node;
      } else {
        head := node;
      }
      tail := node;
      msgs := msgs + 1;
      bytes := bytes + |node.msg.payload|;
      hide Bytes, Messages;
      spine := spine + [node];
    }

    /**
     enqueue of the pool. The node is allocated before the lock is taken; as all payloads are in
     memory together, their sum does not wrap. `stopping` is what the flag reads under q_lock.
     */
    method EnqueuePool(data: Option<seq<Byte>>, binary: bool, stopping: bool, allocOk: bool, l: Limits)
      returns (r: RetCode)
      requires Valid() && Within(l, Contents())
      modifies this, spine
      ensures Valid() && Within(l, Contents())
      ensures r == if data.None? then LwsErrParam
                   else if !allocOk then LwsErrQueueFull
                   else if stopping then LwsErrParam
                   else if Accepts(l, old(Contents()), Msg(data.value, binary)) then LwsOk
                   else LwsErrQueueFull
      ensures r == LwsOk ==> Contents() == old(Contents()) + [Msg(data.value, binary)]
      ensures r != LwsOk ==> unchanged(this) && forall x <- old(spine) :: unchanged(x)
    {
      if data.None? {
        return LwsErrParam;
      }
      if !allocOk {
        return LwsErrQueueFull;
      }
      var node := new Node(Msg(data.value, binary));
      if stopping {
        return LwsErrParam;
      }
      OverLimitIff(l, Contents(), node.msg);
      if OverLimit(l, msgs, bytes, |node.msg.payload|) {
        return LwsErrQueueFull;
      }
      ghost var q := Contents();
      Link(node);
      assert Contents() == q + [node.msg];
      return LwsOk;
    }

    /** enqueue of v1: the same flow control, no look at `stopping`. */
    method EnqueueV1(data: Option<seq<Byte>>, binary: bool, allocOk: bool, l: Limits) returns (r: RetCode)
      requires Valid() && Within(l, Contents())
      modifies this, spine
      ensures Valid() && Within(l, Contents())
      ensures r == if data.None? then LwsErrParam
                   else if allocOk && Accepts(l, old(Contents()), Msg(data.value, binary)) then LwsOk
                   else LwsErrQueueFull
      ensures r == LwsOk ==> Contents() == old(Contents()) + [Msg(data.value, binary)]
      ensures r != LwsOk ==> unchanged(this) && forall x <- old(spine) :: unchanged(x)
    {
      r := EnqueuePool(data, binary, false, allocOk, l);
    }

    /** enqueue_msg of v2: flow control on ints first, then the allocation. */
    method EnqueueV2(data: Option<seq<Byte>>, binary: bool, allocOk: bool, l: Limits) returns (r: RetCode)
      requires Valid() && l.maxMsgs < INT_LIMIT && l.maxBytes < INT_LIMIT
      modifies this, spine
      ensures Valid()
      ensures r == if data.None? then LwsErrParam
                   else if OverLimitV2(l, old(msgs), old(bytes), |data.value|) || !allocOk then LwsErrQueueFull
                   else LwsOk
      ensures r == LwsOk ==> Contents() == old(Contents()) + [Msg(data.value, binary)]
      ensures r != LwsOk ==> unchanged(this) && forall x <- old(spine) :: unchanged(x)
    {
      if data.None? {
        return LwsErrParam;
      }
      if l.maxMsgs > 0 && AsInt(msgs) >= l.maxMsgs {
        return LwsErrQueueFull;
      }
      if l.maxBytes > 0 && AsInt(bytes + |data.value|) > l.maxBytes {
        return LwsErrQueueFull;
      }
      if !allocOk {
        return LwsErrQueueFull;
      }
      var node := new Node(Msg(data.value, binary));
      Link(node);
      return LwsOk;
    }

    /** The dequeue of the WRITEABLE callbacks; the node is the caller's to free. */
    method Take() returns (node: Node?, more: bool)
      requires Valid()
      modifies this
      ensures Valid()
      ensures if old(spine) == [] then node == null && spine == []
              else node == old(spine)[0] && spine == old(spine)[1..]
      ensures node != null ==> old(Contents()) == [node.msg] + Contents()
      ensures more <==> spine != []
    {
      node := head;
      if node != null {
        HeadOff(spine);
        ChainTail(spine);
        hide Chained, Messages, Bytes;
        head := node.next;
        if head == null {
          tail := null;
        }
        msgs := msgs - 1;
        bytes := bytes - |node.msg.payload|;
        spine := spine[1..];
      }
      more := head != null;
    }

    /** ws_flush_queue: frees every node once, head to tail, and reads none that it has freed. */
    method Flush() returns (ghost freed: seq<Node>)
      requires Valid()
      modifies this
      ensures Valid() && Contents() == []
      ensures freed == old(spine)
      ensures forall i, j :: 0 <= i < j < |freed| ==> freed[i] != freed[j]
    {
      var n := head;
      freed := [];
      while n != null
        invariant freed <= spine
        invariant n == if |freed| < |spine| then spine[|freed|] else null
        decreases |spine| - |freed|
      {
        assert n !in freed;
        var next := n.next;
        freed := freed + [n];
        n := next;
      }
      head, tail := null, null;
      msgs, bytes := 0, 0;
      spine := [];
    }
  }
}
