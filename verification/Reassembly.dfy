/**
 Message reassembly in the CLIENT_RECEIVE callbacks (section 5.4 of RFC 6455):
 v1 and the pool do the same, v2 differs in three places.
 */
module Reassembly {
  import opened Common
  import opened FragBuffer

  /** One CLIENT_RECEIVE callback: what lws tells about it and the bytes it carries. */
  datatype Chunk = Chunk(first: bool, final: bool, remaining: nat, data: seq<Byte>, binary: bool)

  predicate Ends(k: Chunk) {
    k.final && k.remaining == 0
  }

  /** The bytes kept in the fragment buffer and the rx_cb calls made so far. */
  datatype Rx = Rx(frag: seq<Byte>, delivered: seq<Msg>)

  /** v1 and the pool; `ok` says whether frag_append found memory. */
  function Receive(rx: Rx, k: Chunk, ok: bool): Rx {
    if k.first && Ends(k) then
      rx.(delivered := rx.delivered + [Msg(k.data, k.binary)])
    else
      var kept := if k.first then [] else rx.frag;
      if !ok then rx.(frag := kept)
      else if Ends(k) then Rx([], rx.delivered + [Msg(kept + k.data, k.binary)])
      else rx.(frag := kept + k.data)
  }

  /** v2: no reset on `first`, delivery on `final` alone, and none of an empty buffer. */
  function ReceiveV2(rx: Rx, k: Chunk, ok: bool): Rx {
    if k.first && Ends(k) then
      rx.(delivered := rx.delivered + [Msg(k.data, k.binary)])
    else if !ok then rx
    else
      var all := rx.frag + k.data;
      if !k.final then rx.(frag := all)
      else Rx([], if all == [] then rx.delivered else rx.delivered + [Msg(all, k.binary)])
  }

  class Receiver {
    const frag: FragBuffer
    var delivered: seq<Msg>  // the rx_cb calls

    ghost predicate Valid()
      reads this, frag
    {
      frag.Valid()
    }

    ghost function Abs(): Rx
      reads this, frag, frag.buf
      requires Valid()
    {
      Rx(frag.Contents(), delivered)
    }

    constructor ()
      ensures Valid() && Abs() == Rx([], []) && fresh(frag) && fresh(frag.buf)
    {
      frag := new FragBuffer();
      delivered := [];
    }

    /** CLIENT_RECEIVE of v1 and the pool; false is the return of -1, which closes the connection. */
    method OnReceive(k: Chunk, allocOk: bool) returns (ok: bool)
      requires Valid() && frag.len + |k.data| <= HALF_LIMIT
      modifies this, frag, frag.buf
      ensures Valid() && Abs() == Receive(old(Abs()), k, ok)
      ensures allocOk || (k.first && Ends(k)) ==> ok
      ensures frag.buf == old(frag.buf) || fresh(frag.buf)
    {
      if k.first && k.final && k.remaining == 0 {
        delivered := delivered + [Msg(k.data, k.binary)];
      } else {
        if k.first {
          frag.Reset();
        }
        var appended := frag.Append(k.data, allocOk);
        if !appended {
          return false;
        }
        if k.final && k.remaining == 0 {
          delivered := delivered + [Msg(frag.buf[..frag.len], k.binary)];
          frag.Reset();
        }
      }
      return true;
    }

    /** CLIENT_RECEIVE of v2. */
    method OnReceiveV2(k: Chunk, allocOk: bool) returns (ok: bool)
      requires Valid() && frag.len + |k.data| <= HALF_LIMIT
      modifies this, frag, frag.buf
      ensures Valid() && Abs() == ReceiveV2(old(Abs()), k, ok)
      ensures allocOk || (k.first && Ends(k)) ==> ok
      ensures frag.buf == old(frag.buf) || fresh(frag.buf)
    {
      if k.first && k.final && k.remaining == 0 {
        delivered := delivered + [Msg(k.data, k.binary)];
      } else {
        var appended := frag.Append(k.data, allocOk);
        if !appended {
          return false;
        }
        if k.final {
          if frag.len > 0 {
            delivered := delivered + [Msg(frag.buf[..frag.len], k.binary)];
          }
          frag.Reset();
        }
      }
      return true;
    }
  }

  // ---- What the peer sends and how lws hands it over ----

  /**
   A message on the wire: its frames, each cut into the pieces that lws hands over. `late` is the piece of the last
   frame from which on lws_is_final_fragment holds; it depends on the version of lws whether that is the first
   piece already, or only the last one, with which no payload remains.
   */
  datatype Wire = Wire(frames: seq<seq<seq<Byte>>>, binary: bool, late: nat)

  ghost predicate WellCutFrame(f: seq<seq<Byte>>) {
    f != [] && (|f| > 1 ==> f[|f| - 1] != [])
  }

  /** A frame comes in one piece or ends in a piece that is not empty; empty frames are allowed. */
  ghost predicate WellCut(w: Wire) {
    && w.frames != [] && (forall i :: 0 <= i < |w.frames| ==> WellCutFrame(w.frames[i]))
    && w.late < |w.frames[|w.frames| - 1]|
  }

  function Payload(frames: seq<seq<seq<Byte>>>): seq<Byte> {
    if frames == [] then [] else Flatten(frames[0]) + Payload(frames[1..])
  }

  /** The chunks of a frame, final from chunk p on. */
  function FrameChunks(f: seq<seq<Byte>>, first: bool, p: nat, binary: bool): seq<Chunk>
    decreases |f|
  {
    if f == [] then []
    else
      [Chunk(first, p == 0, |Flatten(f[1..])|, f[0], binary)]
      + FrameChunks(f[1..], false, if p == 0 then 0 else p - 1, binary)
  }

  function MessageChunks(frames: seq<seq<seq<Byte>>>, first: bool, late: nat, binary: bool): seq<Chunk>
    decreases |frames|
  {
    if frames == [] then []
    else
      FrameChunks(frames[0], first, if |frames| == 1 then late else |frames[0]|, binary)
      + MessageChunks(frames[1..], false, late, binary)
  }

  function Chunks(w: Wire): seq<Chunk> {
    MessageChunks(w.frames, true, w.late, w.binary)
  }

  function Data(ks: seq<Chunk>): seq<Byte> {
    if ks == [] then [] else ks[0].data + Data(ks[1..])
  }

  lemma {:induction false} DataAppend(xs: seq<Chunk>, ys: seq<Chunk>)
    ensures Data(xs + ys) == Data(xs) + Data(ys)
  {
    if xs == [] {
      assert xs + ys == ys;
    } else {
      assert (xs + ys)[1..] == xs[1..] + ys;
      DataAppend(xs[1..], ys);
    }
  }

  /**
   The flags of one message: `first` on its first chunk only, `final` from chunk p on,
   and `final` with nothing remaining on its last chunk only.
   */
  ghost predicate Flagged(ks: seq<Chunk>, p: nat, first: bool, binary: bool) {
    && p < |ks|
    && (forall i :: 0 <= i < |ks| ==>
          && (ks[i].first <==> first && i == 0)
          && (ks[i].final <==> i >= p)
          && (Ends(ks[i]) <==> i == |ks| - 1)
          && ks[i].binary == binary)
    && (p < |ks| - 1 ==> ks[|ks| - 1].data != [])
  }

  lemma {:induction false} FlattenNonEmpty(f: seq<seq<Byte>>)
    requires f != [] && f[|f| - 1] != []
    ensures Flatten(f) != []
  {
    if |f| > 1 {
      FlattenNonEmpty(f[1..]);
    }
  }

  lemma {:induction false} FrameFlags(f: seq<seq<Byte>>, first: bool, p: nat, binary: bool)
    requires WellCutFrame(f)
    ensures var r := FrameChunks(f, first, p, binary);
            && |r| == |f| && Data(r) == Flatten(f)
            && (forall i :: 0 <= i < |r| ==>
                  && (r[i].first <==> first && i == 0)
                  && (r[i].final <==> i >= p) && r[i].data == f[i] && r[i].binary == binary
                  && (r[i].remaining == 0 <==> i == |r| - 1))
    decreases |f|
  {
    if |f| > 1 {
      FlattenNonEmpty(f[1..]);
      FrameFlags(f[1..], false, if p == 0 then 0 else p - 1, binary);
      var rest := FrameChunks(f[1..], false, if p == 0 then 0 else p - 1, binary);
      var r := FrameChunks(f, first, p, binary);
      assert r[1..] == rest && Data(r) == r[0].data + Data(rest) && Flatten(f) == f[0] + Flatten(f[1..]);
      hide FrameChunks, Data, Flatten;
    } else {
      assert f[1..] == [];
    }
  }

  /** The chunks of a frame that is not the last one, before the rest of the message. */
  lemma FlaggedAfterFrame(head: seq<Chunk>, rest: seq<Chunk>, p: nat, first: bool, binary: bool)
    requires head != [] && Flagged(rest, p, false, binary)
    requires forall i :: 0 <= i < |head| ==>
               (head[i].first <==> first && i == 0) && !head[i].final && head[i].binary == binary
    ensures Flagged(head + rest, |head| + p, first, binary)
  {
    var ks := head + rest;
    forall i | 0 <= i < |ks|
      ensures && (ks[i].first <==> first && i == 0) && (ks[i].final <==> i >= |head| + p)
              && (Ends(ks[i]) <==> i == |ks| - 1) && ks[i].binary == binary
    {
      if i >= |head| {
        assert ks[i] == rest[i - |head|];
      } else {
        assert ks[i] == head[i];
      }
    }
  }

  lemma EarlierFrame(f: seq<seq<Byte>>, first: bool, binary: bool)
    requires WellCutFrame(f)
    ensures var r := FrameChunks(f, first, |f|, binary);
            && r != [] && Data(r) == Flatten(f)
            && forall i :: 0 <= i < |r| ==> (r[i].first <==> first && i == 0) && !r[i].final && r[i].binary == binary
  {
    FrameFlags(f, first, |f|, binary);
  }

  lemma LastFrame(f: seq<seq<Byte>>, first: bool, late: nat, binary: bool)
    requires WellCutFrame(f) && late < |f|
    ensures var r := FrameChunks(f, first, late, binary);
            |r| == |f| && Data(r) == Flatten(f) && Flagged(r, late, first, binary)
  {
    FrameFlags(f, first, late, binary);
    hide FrameChunks, Data, Flatten;
  }

  lemma {:induction false} MessageFlags(frames: seq<seq<seq<Byte>>>, first: bool, late: nat, binary: bool)
    requires frames != [] && forall i :: 0 <= i < |frames| ==> WellCutFrame(frames[i])
    requires late < |frames[|frames| - 1]|
    ensures var ks := MessageChunks(frames, first, late, binary);
            && |ks| >= |frames[|frames| - 1]| && Data(ks) == Payload(frames)
            && Flagged(ks, |ks| - |frames[|frames| - 1]| + late, first, binary)
    decreases |frames|
  {
    hide FrameChunks, Flatten, WellCutFrame, Flagged, Data;
    var rest := MessageChunks(frames[1..], false, late, binary);
    if |frames| == 1 {
      LastFrame(frames[0], first, late, binary);
      assert FrameChunks(frames[0], first, late, binary) + rest == FrameChunks(frames[0], first, late, binary);
      assert Flatten(frames[0]) + Payload(frames[1..]) == Flatten(frames[0]);
    } else {
      var head := FrameChunks(frames[0], first, |frames[0]|, binary);
      EarlierFrame(frames[0], first, binary);
      DataAppend(head, rest);
      assert frames[1..][|frames| - 2] == frames[|frames| - 1];
      MessageFlags(frames[1..], false, late, binary);
      FlaggedAfterFrame(head, rest, |rest| - |frames[|frames| - 1]| + late, first, binary);
    }
  }

  lemma ChunksFlagged(w: Wire) returns (p: nat)
    requires WellCut(w)
    ensures Data(Chunks(w)) == Payload(w.frames)
    ensures p + |w.frames[|w.frames| - 1]| == |Chunks(w)| + w.late && Flagged(Chunks(w), p, true, w.binary)
  {
    MessageFlags(w.frames, true, w.late, w.binary);
    p := |Chunks(w)| - |w.frames[|w.frames| - 1]| + w.late;
  }

  lemma DataSplitLast(ks: seq<Chunk>)
    requires ks != []
    ensures Data(ks) == Data(ks[..|ks| - 1]) + ks[|ks| - 1].data
  {
    var n := |ks| - 1;
    assert ks == ks[..n] + [ks[n]];
    DataAppend(ks[..n], [ks[n]]);
    assert Data([ks[n]]) == ks[n].data;
  }

  // ---- v1 and the pool ----

  function Run(rx: Rx, ks: seq<Chunk>): Rx {
    if ks == [] then rx else Receive(Run(rx, ks[..|ks| - 1]), ks[|ks| - 1], true)
  }

  /** In the middle of a message the buffer holds exactly that message's bytes and nothing is delivered. */
  lemma {:induction false} RunInside(rx: Rx, ks: seq<Chunk>, p: nat, b: bool, n: nat)
    requires Flagged(ks, p, true, b) && n < |ks|
    ensures Run(rx, ks[..n]) == if n == 0 then rx else Rx(Data(ks[..n]), rx.delivered)
  {
    if n > 0 {
      assert ks[..n][..n - 1] == ks[..n - 1];
      RunInside(rx, ks, p, b, n - 1);
      DataSplitLast(ks[..n]);
    }
  }

  lemma RunFlagged(rx: Rx, ks: seq<Chunk>, p: nat, b: bool)
    requires Flagged(ks, p, true, b)
    ensures Run(rx, ks).delivered == rx.delivered + [Msg(Data(ks), b)]
  {
    var n := |ks| - 1;
    RunInside(rx, ks, p, b, n);
    DataSplitLast(ks);
    assert Ends(ks[n]) && ks[n].binary == b;
    if n == 0 {
      assert Data(ks) == ks[0].data;
    } else {
      assert !ks[n].first;
    }
  }

  /**
   What comes of a message: it arrives whole; or the connection goes down after n of its chunks; or its chunk
   number n finds no memory, and -1 closes the connection. After the last two the next connection begins.
   */
  datatype Arrival = Whole(w: Wire) | Dropped(w: Wire, n: nat) | NoMemory(w: Wire, n: nat)

  ghost predicate ArrivalOk(a: Arrival) {
    && WellCut(a.w)
    && (!a.Whole? ==> a.n < |Chunks(a.w)|)
    && (a.NoMemory? ==> |Chunks(a.w)| > 1)
  }

  ghost predicate ArrivalsOk(xs: seq<Arrival>) {
    xs == [] || (ArrivalOk(xs[0]) && ArrivalsOk(xs[1..]))
  }

  ghost function RunArrival(rx: Rx, a: Arrival): Rx
    requires ArrivalOk(a)
  {
    var ks := Chunks(a.w);
    match a
    case Whole(_) => Run(rx, ks)
    case Dropped(_, n) => Run(rx, ks[..n])
    case NoMemory(_, n) => Receive(Run(rx, ks[..n]), ks[n], false)
  }

  ghost function RunAll(rx: Rx, xs: seq<Arrival>): Rx
    requires ArrivalsOk(xs)
    decreases |xs|
  {
    if xs == [] then rx else RunAll(RunArrival(rx, xs[0]), xs[1..])
  }

  function Completes(a: Arrival): seq<Msg> {
    if a.Whole? then [Msg(Payload(a.w.frames), a.w.binary)] else []
  }

  function Completed(xs: seq<Arrival>): seq<Msg> {
    if xs == [] then [] else Completes(xs[0]) + Completed(xs[1..])
  }

  lemma RunArrivalDelivers(rx: Rx, a: Arrival)
    requires ArrivalOk(a)
    ensures RunArrival(rx, a).delivered == rx.delivered + Completes(a)
  {
    var p := ChunksFlagged(a.w);
    if a.Whole? {
      RunFlagged(rx, Chunks(a.w), p, a.w.binary);
    } else {
      RunInside(rx, Chunks(a.w), p, a.w.binary, a.n);
    }
  }

  /** A message that is not completed leaves the bytes of the chunks that came, and nothing of an earlier one. */
  lemma AbortedLeavesOwnBytes(rx: Rx, a: Arrival)
    requires ArrivalOk(a) && !a.Whole? && (a.n > 0 || a.NoMemory?)
    ensures RunArrival(rx, a).frag == Data(Chunks(a.w)[..a.n])
  {
    var p := ChunksFlagged(a.w);
    RunInside(rx, Chunks(a.w), p, a.w.binary, a.n);
  }

  /**
   Reassembly undoes chunking: whatever the cuts, drops and failed allocations, and whatever
   an earlier connection left in the buffer, rx_cb sees the completed messages in order.
   */
  lemma {:induction false} ReassemblyUndoesChunking(rx: Rx, xs: seq<Arrival>)
    requires ArrivalsOk(xs)
    ensures RunAll(rx, xs).delivered == rx.delivered + Completed(xs)
    decreases |xs|
  {
    hide RunArrival, ArrivalOk, Completes;
    if xs != [] {
      var r := RunArrival(rx, xs[0]);
      RunArrivalDelivers(rx, xs[0]);
      ReassemblyUndoesChunking(r, xs[1..]);
      assert rx.delivered + Completed(xs) == r.delivered + Completed(xs[1..]);
    }
  }
}
