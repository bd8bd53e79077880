/**
 When the reassembler of src/ws_client_v2.c delivers what was sent: it hands over a buffered
 message on `final` alone, skips an empty one, and does not clear the buffer on `first`.
 */
module ReassemblyV2 {
  import opened Common
  import opened Reassembly

  function RunV2(rx: Rx, ks: seq<Chunk>): Rx
    decreases |ks|
  {
    if ks == [] then rx else RunV2(ReceiveV2(rx, ks[0], true), ks[1..])
  }

  function PayloadBytes(ms: seq<Msg>): nat {
    if ms == [] then 0 else |ms[0].payload| + PayloadBytes(ms[1..])
  }

  function CountEmpty(ms: seq<Msg>): nat {
    if ms == [] then 0 else (if ms[0].payload == [] then 1 else 0) + CountEmpty(ms[1..])
  }

  lemma {:induction false} CountsAppend(xs: seq<Msg>, ys: seq<Msg>)
    ensures PayloadBytes(xs + ys) == PayloadBytes(xs) + PayloadBytes(ys)
    ensures CountEmpty(xs + ys) == CountEmpty(xs) + CountEmpty(ys)
  {
    if xs == [] {
      assert xs + ys == ys;
    } else {
      assert (xs + ys)[1..] == xs[1..] + ys;
      CountsAppend(xs[1..], ys);
    }
  }

  /** Chunks that v2 puts into the buffer, `final` from chunk p on. */
  ghost predicate Buffered(ks: seq<Chunk>, p: nat, b: bool) {
    forall i :: 0 <= i < |ks| ==>
      (ks[i].final <==> i >= p) && ks[i].binary == b && !(ks[i].first && Ends(ks[i]))
  }

  /** The calls for the bytes f that are buffered already and the chunks ks. */
  function Calls(f: seq<Byte>, ks: seq<Chunk>): seq<Msg>
    decreases |ks|
  {
    if ks == [] then []
    else
      var all := f + ks[0].data;
      if !ks[0].final then Calls(all, ks[1..])
      else (if all == [] then [] else [Msg(all, ks[0].binary)]) + Calls([], ks[1..])
  }

  /** Calls, one chunk further on. */
  lemma CallsStep(f: seq<Byte>, ks: seq<Chunk>)
    requires ks != []
    ensures var all := f + ks[0].data;
            && (!ks[0].final ==> Calls(f, ks) == Calls(all, ks[1..]))
            && (ks[0].final && all == [] ==> Calls(f, ks) == Calls([], ks[1..]))
            && (ks[0].final && all != [] ==> Calls(f, ks) == [Msg(all, ks[0].binary)] + Calls([], ks[1..]))
  {
  }

  lemma ReceiveDelivers(rx: Rx, k: Chunk)
    requires !(k.first && Ends(k))
    ensures var all, next := rx.frag + k.data, ReceiveV2(rx, k, true);
            && next.frag == (if k.final then [] else all)
            && next.delivered == if k.final && all != [] then rx.delivered + [Msg(all, k.binary)] else rx.delivered
  {
  }

  lemma ReceiveMakesCalls(rx: Rx, ks: seq<Chunk>)
    requires ks != [] && !(ks[0].first && Ends(ks[0]))
    ensures var next := ReceiveV2(rx, ks[0], true);
            && rx.delivered + Calls(rx.frag, ks) == next.delivered + Calls(next.frag, ks[1..])
            && next.frag == if ks[0].final then [] else rx.frag + ks[0].data
  {
    CallsStep(rx.frag, ks);
    ReceiveDelivers(rx, ks[0]);
    hide ReceiveV2, Calls, Ends;
    var all := rx.frag + ks[0].data;
    if ks[0].final && all != [] {
      var call, more := [Msg(all, ks[0].binary)], Calls([], ks[1..]);
      assert rx.delivered + (call + more) == rx.delivered + call + more;
    }
  }

  lemma {:induction false} RunCalls(rx: Rx, ks: seq<Chunk>, p: nat, b: bool)
    requires Buffered(ks, p, b)
    ensures RunV2(rx, ks) == Rx(if p < |ks| then [] else rx.frag + Data(ks), rx.delivered + Calls(rx.frag, ks))
    decreases |ks|
  {
    if ks == [] {
      assert rx.frag + Data(ks) == rx.frag && rx.delivered + Calls(rx.frag, ks) == rx.delivered;
    } else {
      var next, rest := ReceiveV2(rx, ks[0], true), ks[1..];
      ReceiveMakesCalls(rx, ks);
      hide ReceiveV2;
      RunCalls(next, rest, if p == 0 then 0 else p - 1, b);
      assert p >= |ks| ==> rx.frag + Data(ks) == next.frag + Data(rest);
      assert p == 0 && rest == [] ==> next.frag + Data(rest) == [];
    }
  }

  lemma {:induction false} CallsCounts(f: seq<Byte>, ks: seq<Chunk>, p: nat, b: bool)
    requires Buffered(ks, p, b)
    ensures CountEmpty(Calls(f, ks)) == 0
    ensures PayloadBytes(Calls(f, ks)) == if p < |ks| then |f| + |Data(ks)| else 0
    decreases |ks|
  {
    if ks != [] {
      var rest := ks[1..];
      CallsStep(f, ks);
      CallsCounts(if p == 0 then [] else f + ks[0].data, rest, if p == 0 then 0 else p - 1, b);
      CountsAppend([Msg(f + ks[0].data, b)], Calls([], rest));
      assert rest == [] ==> Data(rest) == [];
    }
  }

  lemma NoBytesNoCalls(ms: seq<Msg>)
    requires CountEmpty(ms) == 0
    ensures ms == [] <==> PayloadBytes(ms) == 0
  {
  }

  /** Whether the calls for the buffered bytes f and the chunks ks of a whole message are one call with all of it. */
  ghost predicate OneCall(f: seq<Byte>, ks: seq<Chunk>, p: nat)
    requires ks != []
  {
    && f + Data(ks) != []
    && (p == |ks| - 1 || f + Data(ks[..|ks| - 1]) == [])
  }

  /** The calls are one call with everything, or none or several. */
  lemma {:induction false} CallsOneIff(f: seq<Byte>, ks: seq<Chunk>, p: nat, b: bool)
    requires Buffered(ks, p, b) && p < |ks| && (p < |ks| - 1 ==> ks[|ks| - 1].data != [])
    ensures if OneCall(f, ks, p) then Calls(f, ks) == [Msg(f + Data(ks), b)] else |Calls(f, ks)| != 1
    decreases |ks|
  {
    BufferedTail(ks, p, b);
    CallsStep(f, ks);
    if |ks| == 1 {
      LastCall(f, ks);
    } else {
      var rest := ks[1..];
      OneCallStep(f, ks, p);
      assert rest[|rest| - 1] == ks[|ks| - 1];
      hide Calls, Data, Buffered, OneCall;
      if p == 0 && f + ks[0].data != [] {
        TwoCalls(rest, b);
      } else {
        CallsOneIff(f + ks[0].data, rest, if p == 0 then 0 else p - 1, b);
      }
    }
  }

  lemma BufferedTail(ks: seq<Chunk>, p: nat, b: bool)
    requires Buffered(ks, p, b) && ks != []
    ensures Buffered(ks[1..], if p == 0 then 0 else p - 1, b)
    ensures (ks[0].final <==> p == 0) && ks[0].binary == b
  {
  }

  lemma LastCall(f: seq<Byte>, ks: seq<Chunk>)
    requires |ks| == 1 && ks[0].final
    ensures var all := f + Data(ks); Calls(f, ks) == if all == [] then [] else [Msg(all, ks[0].binary)]
  {
    assert f + Data(ks) == f + ks[0].data;
    assert ks[1..] == [] && Calls([], ks[1..]) == [];
  }

  lemma DataStep(f: seq<Byte>, ks: seq<Chunk>)
    requires ks != []
    ensures f + Data(ks) == f + ks[0].data + Data(ks[1..])
  {
  }

  /** OneCall, one chunk further on; after a final chunk with something to deliver a second call follows. */
  lemma OneCallStep(f: seq<Byte>, ks: seq<Chunk>, p: nat)
    requires |ks| > 1
    ensures var all := f + ks[0].data;
            && f + Data(ks) == all + Data(ks[1..])
            && (p > 0 ==> (OneCall(f, ks, p) <==> OneCall(all, ks[1..], p - 1)))
            && (p == 0 && all == [] ==> (OneCall(f, ks, p) <==> OneCall(all, ks[1..], 0)))
            && (p == 0 && all != [] ==> !OneCall(f, ks, p))
  {
    var init := ks[..|ks| - 1];
    DataStep(f, ks);
    DataStep(f, init);
    assert init[1..] == ks[1..][..|ks| - 2];
    assert Data([]) == [];
    hide Data;
  }

  /** When all chunks are final, and the last one is not empty, there is a call. */
  lemma TwoCalls(rest: seq<Chunk>, b: bool)
    requires Buffered(rest, 0, b) && rest != [] && rest[|rest| - 1].data != []
    ensures Calls([], rest) != []
  {
    DataSplitLast(rest);
    CallsCounts([], rest, 0, b);
    NoBytesNoCalls(Calls([], rest));
  }

  // ---- One message ----

  predicate Single(w: Wire) {
    |Chunks(w)| == 1
  }

  /**
   The messages v2 delivers properly from an empty buffer: those in one chunk; otherwise they must not be empty,
   and either only the last chunk is final or all chunks before it are empty.
   */
  ghost predicate Clean(w: Wire) {
    || Single(w)
    || (&& w.frames != [] && Payload(w.frames) != [] && Chunks(w) != []
        && (w.late == |w.frames[|w.frames| - 1]| - 1 || Data(Chunks(w)[..|Chunks(w)| - 1]) == []))
  }

  lemma SingleV2(rx: Rx, ks: seq<Chunk>, p: nat, b: bool)
    requires |ks| == 1 && Flagged(ks, p, true, b)
    ensures RunV2(rx, ks) == rx.(delivered := rx.delivered + [Msg(Data(ks), b)])
  {
    assert Data(ks) == ks[0].data + Data([]) == ks[0].data;
    assert Ends(ks[0]);
    assert RunV2(ReceiveV2(rx, ks[0], true), ks[1..]) == ReceiveV2(rx, ks[0], true);
  }

  lemma FlaggedIsBuffered(ks: seq<Chunk>, p: nat, b: bool, n: nat)
    requires Flagged(ks, p, true, b) && |ks| > 1 && n <= |ks|
    ensures Buffered(ks[..n], p, b)
  {
  }

  /** A message in several chunks that arrives whole: all bytes that were buffered come out, and none twice. */
  lemma SeveralV2(rx: Rx, w: Wire) returns (calls: seq<Msg>)
    requires WellCut(w) && !Single(w)
    ensures RunV2(rx, Chunks(w)) == Rx([], rx.delivered + calls)
    ensures PayloadBytes(calls) == |rx.frag| + |Payload(w.frames)| && CountEmpty(calls) == 0
    ensures rx.frag == [] ==>
              if Clean(w) then calls == [Msg(Payload(w.frames), w.binary)]
              else |calls| != 1 && (calls == [] <==> Payload(w.frames) == [])
  {
    var ks := Chunks(w);
    var p := ChunksFlagged(w);
    assert ks[..|ks|] == ks;
    FlaggedIsBuffered(ks, p, w.binary, |ks|);
    calls := Calls(rx.frag, ks);
    RunCalls(rx, ks, p, w.binary);
    CallsCounts(rx.frag, ks, p, w.binary);
    CallsOneIff(rx.frag, ks, p, w.binary);
    NoBytesNoCalls(calls);
    hide Calls, Chunks, WellCut, Payload, Flagged, Buffered;
    assert [] + Data(ks) == Data(ks);
    assert [] + Data(ks[..|ks| - 1]) == Data(ks[..|ks| - 1]);
  }

  /**
   A connection that goes down after n chunks of a message leaves the bytes behind, unless the last chunk that came
   was final: then pieces of the message, which is never completed, have been delivered.
   */
  lemma PartV2(rx: Rx, w: Wire, n: nat) returns (calls: seq<Msg>)
    requires WellCut(w) && n < |Chunks(w)|
    ensures var part := Data(Chunks(w)[..n]);
            if n > 0 && Chunks(w)[n - 1].final
            then RunV2(rx, Chunks(w)[..n]) == Rx([], rx.delivered + calls)
                 && CountEmpty(calls) == 0 && PayloadBytes(calls) == |rx.frag| + |part|
            else RunV2(rx, Chunks(w)[..n]) == Rx(rx.frag + part, rx.delivered) && calls == []
  {
    var ks := Chunks(w);
    var p := ChunksFlagged(w);
    if n == 0 {
      assert ks[..0] == [] && rx.frag + Data(ks[..0]) == rx.frag;
      calls := [];
    } else {
      FlaggedIsBuffered(ks, p, w.binary, n);
      calls := Calls(rx.frag, ks[..n]);
      RunCalls(rx, ks[..n], p, w.binary);
      CallsCounts(rx.frag, ks[..n], p, w.binary);
      NoBytesNoCalls(calls);
    }
  }

  // ---- All that arrives, over any number of connections ----

  ghost function RunArrivalV2(rx: Rx, a: Arrival): Rx
    requires ArrivalOk(a)
  {
    var ks := Chunks(a.w);
    match a
    case Whole(_) => RunV2(rx, ks)
    case Dropped(_, n) => RunV2(rx, ks[..n])
    case NoMemory(_, n) => ReceiveV2(RunV2(rx, ks[..n]), ks[n], false)
  }

  ghost function RunAllV2(rx: Rx, xs: seq<Arrival>): Rx
    requires ArrivalsOk(xs)
    decreases |xs|
  {
    if xs == [] then rx else RunAllV2(RunArrivalV2(rx, xs[0]), xs[1..])
  }

  /** The bytes of an aborted message. */
  ghost function Aborted(a: Arrival): seq<Byte>
    requires ArrivalOk(a)
  {
    if a.Whole? then [] else Data(Chunks(a.w)[..a.n])
  }

  /** Whether v2 empties its buffer: a message in several chunks is complete, or the last chunk that came is final. */
  ghost predicate Empties(a: Arrival)
    requires ArrivalOk(a)
  {
    if a.Whole? then !Single(a.w) else a.n > 0 && Chunks(a.w)[a.n - 1].final
  }

  /** The buffer is never emptied with bytes of an aborted message in it; `stale` is how many there are at first. */
  ghost predicate Unmixed(stale: nat, xs: seq<Arrival>)
    requires ArrivalsOk(xs)
    decreases |xs|
  {
    xs == [] ||
    if Empties(xs[0]) then stale == 0 && Aborted(xs[0]) == [] && Unmixed(0, xs[1..])
    else Unmixed(stale + |Aborted(xs[0])|, xs[1..])
  }

  ghost predicate CleanArrival(a: Arrival) {
    a.Whole? ==> Clean(a.w)
  }

  ghost predicate AllClean(xs: seq<Arrival>) {
    xs == [] || (CleanArrival(xs[0]) && AllClean(xs[1..]))
  }

  lemma ArrivalV2(rx: Rx, a: Arrival) returns (calls: seq<Msg>)
    requires ArrivalOk(a)
    ensures RunArrivalV2(rx, a) == Rx(if Empties(a) then [] else rx.frag + Aborted(a), rx.delivered + calls)
    ensures !Empties(a) ==> CleanArrival(a) && calls == Completes(a)
    ensures Empties(a) ==> PayloadBytes(calls) == |rx.frag| + |Aborted(a)| + PayloadBytes(Completes(a))
    ensures Empties(a) ==> CountEmpty(calls) == 0
    ensures Empties(a) && rx.frag == Aborted(a) == [] ==>
              if CleanArrival(a) then calls == Completes(a)
              else a.Whole? && |calls| != 1 && (calls == [] <==> Payload(a.w.frames) == [])
  {
    hide RunV2, Chunks, WellCut, Payload;
    match a
    case Whole(w) =>
      if Single(w) {
        calls := Completes(a);
        var p := ChunksFlagged(w);
        SingleV2(rx, Chunks(w), p, w.binary);
        assert rx.frag + Aborted(a) == rx.frag;
      } else {
        calls := SeveralV2(rx, w);
      }
    case _ =>
      calls := PartV2(rx, a.w, a.n);
      NoMemoryKeeps(RunV2(rx, Chunks(a.w)[..a.n]), a);
      NoBytesNoCalls(calls);
  }

  /** A chunk that finds no memory changes nothing. */
  lemma NoMemoryKeeps(rx: Rx, a: Arrival)
    requires ArrivalOk(a) && !a.Whole?
    ensures a.NoMemory? ==> ReceiveV2(rx, Chunks(a.w)[a.n], false) == rx
  {
    var p := ChunksFlagged(a.w);
  }

  /** Bytes of aborted messages that come out cannot be made up for: the count of all bytes delivered tells. */
  lemma {:induction false} BytesV2(rx: Rx, xs: seq<Arrival>) returns (calls: seq<Msg>)
    requires ArrivalsOk(xs)
    ensures RunAllV2(rx, xs).delivered == rx.delivered + calls
    ensures PayloadBytes(calls) >= PayloadBytes(Completed(xs))
    ensures PayloadBytes(calls) == PayloadBytes(Completed(xs)) <==> Unmixed(|rx.frag|, xs)
    decreases |xs|
  {
    hide ArrivalOk, RunArrivalV2, Empties, Aborted, Completes, CleanArrival;
    if xs == [] {
      calls := [];
    } else {
      var now := ArrivalV2(rx, xs[0]);
      var next := RunArrivalV2(rx, xs[0]);
      var later := BytesV2(next, xs[1..]);
      calls := now + later;
      CountsAppend(now, later);
      CountsAppend(Completes(xs[0]), Completed(xs[1..]));
    }
  }

  /** The calls have no more empty messages and no fewer others than were sent; `exact`: they are those sent. */
  ghost predicate Marked(calls: seq<Msg>, sent: seq<Msg>, exact: bool) {
    && CountEmpty(calls) <= CountEmpty(sent)
    && |calls| - CountEmpty(calls) >= |sent| - CountEmpty(sent)
    && if exact then calls == sent
       else CountEmpty(calls) < CountEmpty(sent) || |calls| - CountEmpty(calls) > |sent| - CountEmpty(sent)
  }

  lemma MarksAdd(c1: seq<Msg>, s1: seq<Msg>, e1: bool, c2: seq<Msg>, s2: seq<Msg>, e2: bool)
    requires Marked(c1, s1, e1) && Marked(c2, s2, e2)
    ensures Marked(c1 + c2, s1 + s2, e1 && e2)
  {
    CountsAppend(c1, c2);
    CountsAppend(s1, s2);
  }

  lemma ArrivalMarks(rx: Rx, a: Arrival) returns (calls: seq<Msg>)
    requires ArrivalOk(a) && (Empties(a) ==> rx.frag == Aborted(a) == [])
    ensures RunArrivalV2(rx, a).delivered == rx.delivered + calls
    ensures |RunArrivalV2(rx, a).frag| == if Empties(a) then 0 else |rx.frag| + |Aborted(a)|
    ensures Marked(calls, Completes(a), CleanArrival(a))
  {
    calls := ArrivalV2(rx, a);
    hide ArrivalOk, RunArrivalV2, Empties, Aborted, CleanArrival, Payload;
  }

  lemma RunAllStep(rx: Rx, xs: seq<Arrival>, now: seq<Msg>, later: seq<Msg>)
    requires xs != [] && ArrivalsOk(xs) && RunArrivalV2(rx, xs[0]).delivered == rx.delivered + now
    requires var next := RunArrivalV2(rx, xs[0]); RunAllV2(next, xs[1..]).delivered == next.delivered + later
    ensures RunAllV2(rx, xs).delivered == rx.delivered + (now + later)
  {
  }

  lemma CompletedMarks(now: seq<Msg>, later: seq<Msg>, xs: seq<Arrival>)
    requires xs != [] && Marked(now, Completes(xs[0]), CleanArrival(xs[0]))
    requires Marked(later, Completed(xs[1..]), AllClean(xs[1..]))
    ensures Marked(now + later, Completed(xs), AllClean(xs))
  {
    MarksAdd(now, Completes(xs[0]), CleanArrival(xs[0]), later, Completed(xs[1..]), AllClean(xs[1..]));
    hide Marked, CleanArrival, Completes;
  }

  /** Where nothing is mixed, a message that is not clean leaves its mark on one of two counts. */
  lemma {:induction false} CountsV2(rx: Rx, xs: seq<Arrival>) returns (calls: seq<Msg>)
    requires ArrivalsOk(xs) && Unmixed(|rx.frag|, xs)
    ensures RunAllV2(rx, xs).delivered == rx.delivered + calls
    ensures Marked(calls, Completed(xs), AllClean(xs))
    decreases |xs|
  {
    if xs == [] {
      calls := [];
    } else {
      hide ArrivalOk, RunArrivalV2, Empties, Aborted, Completes, CleanArrival, Marked, AllClean, Completed, RunAllV2;
      var now := ArrivalMarks(rx, xs[0]);
      var next := RunArrivalV2(rx, xs[0]);
      var later := CountsV2(next, xs[1..]);
      calls := now + later;
      RunAllStep(rx, xs, now, later);
      CompletedMarks(now, later, xs);
    }
  }

  /**
   For whatever arrives, v2 delivers the completed messages, and nothing else, exactly when its buffer is never
   emptied with bytes of an aborted message in it and every message that is completed is clean.
   */
  lemma ReassemblyV2Iff(rx: Rx, xs: seq<Arrival>)
    requires ArrivalsOk(xs)
    ensures RunAllV2(rx, xs).delivered == rx.delivered + Completed(xs) <==> Unmixed(|rx.frag|, xs) && AllClean(xs)
  {
    hide Completed, PayloadBytes, CountEmpty, RunAllV2, Unmixed, AllClean, ArrivalsOk;
    var r := RunAllV2(rx, xs).delivered;
    var calls := BytesV2(rx, xs);
    assert r[|rx.delivered|..] == calls;
    assert (rx.delivered + Completed(xs))[|rx.delivered|..] == Completed(xs);
    if Unmixed(|rx.frag|, xs) {
      var calls' := CountsV2(rx, xs);
      assert r[|rx.delivered|..] == calls';
    }
  }
}
