/**
 What v1 and the pool do on an established connection: WRITEABLE, TIMER, PONG and the wake-up
 (sections 5.5.2 and 5.5.3 of RFC 6455 for the pings).
 */
module Heartbeat {
  import opened Common
  import opened SendQueue

  /** What has happened on one connection, in order: frames handed to lws_write and PONGs received. */
  datatype Item = Ping | Data(m: Msg) | Pong

  /** ping_interval_ms and pong_timeout_ms. */
  datatype Times = Times(interval: nat, pongTimeout: nat)

  datatype Link = Link(
    sendPing: bool,
    pingPending: bool,
    queue: seq<Msg>,
    log: seq<Item>,
    timer: Option<int>,
    writable: bool)       // a WRITEABLE has been requested

  function Establish(t: Times, l: Link, now: int): Link {
    Link(false, false, l.queue, [], Some(now + t.interval), false)
  }

  /** WRITEABLE; `written` is whether lws_write took the message. The second result is the return of -1. */
  function Writeable(l: Link, written: bool): (Link, bool) {
    if l.sendPing then
      (l.(sendPing := false, pingPending := true, log := l.log + [Ping], writable := l.queue != []), false)
    else if l.queue == [] then (l.(writable := false), false)
    else
      (l.(queue := l.queue[1..], log := l.log + [Data(l.queue[0])], writable := written && |l.queue| > 1), !written)
  }

  lemma WriteableOnQueue(l: Link, m: Msg, rest: seq<Msg>, written: bool)
    requires !l.sendPing && !l.writable && l.queue == [m] + rest
    ensures Writeable(l, written) ==
              (l.(queue := rest, log := l.log + [Data(m)], writable := written && rest != []), !written)
  {
    assert l.queue[0] == m && l.queue[1..] == rest;
  }

  /** TIMER; `taken` is whether a heartbeat hook has taken care of it. */
  function Timer(t: Times, l: Link, now: int, taken: bool): (Link, bool) {
    var off := l.(timer := None);
    if taken then (if t.interval > 0 then off.(timer := Some(now + t.interval)) else off, false)
    else if l.pingPending then (off, true)
    else (l.(sendPing := true, writable := true, timer := Some(now + t.pongTimeout)), false)
  }

  function ReceivePong(t: Times, l: Link, now: int): Link {
    l.(pingPending := false, log := l.log + [Pong], timer := Some(now + t.interval))
  }

  /** WAIT_CANCELLED for an established client; the pool asks for a WRITEABLE also to let a stopping client close. */
  function Wake(l: Link, stopping: bool): Link {
    l.(writable := l.writable || stopping || l.queue != [])
  }

  class ClientLink {
    const t: Times
    const queue: SendQueue
    var sendPing: bool
    var pingPending: bool
    var timer: Option<int>
    var writable: bool
    ghost var log: seq<Item>

    ghost predicate Valid()
      reads this, queue, queue.spine
    {
      queue.Valid()
    }

    ghost function Abs(): Link
      reads this, queue
    {
      Link(sendPing, pingPending, queue.Contents(), log, timer, writable)
    }

    constructor (interval: nat, pongTimeout: nat)
      ensures Valid() && Abs() == Link(false, false, [], [], None, false) && t == Times(interval, pongTimeout)
      ensures fresh(queue) && queue.spine == []
    {
      t := Times(interval, pongTimeout);
      queue := new SendQueue();
      sendPing, pingPending, timer, writable, log := false, false, None, false, [];
    }

    method OnEstablished(now: int)
      requires Valid()
      modifies this
      ensures Valid() && Abs() == Establish(t, old(Abs()), now)
    {
      sendPing := false;
      pingPending := false;
      timer := Some(now + t.interval);
      writable, log := false, [];  // the connection is new to lws
    }

    method OnWriteable(written: bool) returns (closes: bool)
      requires Valid()
      modifies this, queue
      ensures Valid() && (Abs(), closes) == Writeable(old(Abs()), written)
    {
      writable := false;
      if sendPing {
        log := log + [Ping];
        sendPing := false;
        pingPending := true;
        var hasData := queue.head != null;
        if hasData {
          writable := true;
        }
        return false;
      }
      closes := WriteMessage(written);
    }

    /** The part of WRITEABLE that writes a message. */
    method WriteMessage(written: bool) returns (closes: bool)
      requires Valid() && !sendPing && !writable
      modifies this`log, this`writable, queue
      ensures Valid() && (Abs(), closes) == Writeable(old(Abs()), written)
    {
      ghost var was := Abs();
      var node, more := queue.Take();
      ghost var rest := queue.Contents();
      assert more <==> rest != [];
      hide SendQueue.Valid;
      if node != null {
        WriteableOnQueue(was, node.msg, rest, written);
        hide Writeable;
        log := log + [Data(node.msg)];
        if !written {
          return true;
        }
        if more {
          writable := true;
        }
      }
      return false;
    }

    method OnTimer(now: int, hook: Option<bool>) returns (closes: bool)
      requires Valid()
      modifies this
      ensures Valid() && (Abs(), closes) == Timer(t, old(Abs()), now, hook == Some(true))
    {
      timer := None;
      if hook.Some? {
        if hook.value {
          if t.interval > 0 {
            timer := Some(now + t.interval);
          }
          return false;
        }
      }
      if pingPending {
        return true;
      }
      sendPing := true;
      writable := true;
      timer := Some(now + t.pongTimeout);
      return false;
    }

    method OnPong(now: int)
      requires Valid()
      modifies this
      ensures Valid() && Abs() == ReceivePong(t, old(Abs()), now)
    {
      pingPending := false;
      timer := Some(now + t.interval);
      log := log + [Pong];
    }

    /** v1 does not look at `stopping` here, which is the case stopping == false. */
    method OnWaitCancelled(wsi: nat, connected: bool, stopping: bool)
      requires Valid()
      modifies this
      ensures Valid() && Abs() == if wsi != 0 && (connected || stopping) then Wake(old(Abs()), stopping) else old(Abs())
    {
      if stopping && wsi != 0 {
        writable := true;
        return;
      }
      if !connected || wsi == 0 {
        return;
      }
      var has := queue.head != null;
      if has {
        writable := true;
      }
    }
  }

  // ---- The backlog drains ----

  function Work(l: Link): nat {
    |l.queue| + if l.sendPing then 1 else 0
  }

  function Writeables(l: Link, n: nat): Link
    decreases n
  {
    if n == 0 then l else Writeables(Writeable(l, true).0, n - 1)
  }

  function Written(q: seq<Msg>): seq<Item> {
    seq(|q|, i requires 0 <= i < |q| => Data(q[i]))
  }

  /** Each WRITEABLE does one piece of work and asks for the next one exactly while messages remain. */
  lemma WriteableStep(l: Link)
    ensures Work(Writeable(l, true).0) == if Work(l) > 0 then Work(l) - 1 else 0
    ensures Writeable(l, true).0.writable <==> Writeable(l, true).0.queue != []
    ensures !Writeable(l, true).0.sendPing
  {
  }

  /** Work(l) WRITEABLEs empty the queue, a due ping first and the messages in their order. */
  lemma {:induction false} Drains(l: Link)
    requires l.writable || Work(l) == 0
    ensures var r := Writeables(l, Work(l));
            && r.queue == [] && !r.sendPing
            && r.log == l.log + (if l.sendPing then [Ping] else []) + Written(l.queue)
    ensures forall k :: 0 <= k < Work(l) ==> Writeables(l, k).writable
    decreases Work(l)
  {
    if Work(l) > 0 {
      WriteableStep(l);
      var next := Writeable(l, true).0;
      Drains(next);
      if !l.sendPing {
        assert Written(l.queue) == [Data(l.queue[0])] + Written(l.queue[1..]);
      }
      forall k | 0 <= k < Work(l)
        ensures Writeables(l, k).writable
      {
        if k > 0 {
          assert Writeables(l, k) == Writeables(next, k - 1);
        }
      }
    }
  }

  /**
   A backlog held at ESTABLISHED is not asked for there; it is delivered, whole and in order, by the
   WRITEABLEs after the first default tick, or after the next send, whose message comes last.
   */
  lemma BacklogDrains(t: Times, l: Link, now: int, tick: int, m: Msg)
    requires l.queue != []
    ensures var up := Establish(t, l, now);
            && !up.writable
            && (var due := Timer(t, up, tick, false).0;
                Writeables(due, |l.queue| + 1).log == [Ping] + Written(l.queue)
                  && Writeables(due, |l.queue| + 1).queue == [])
            && (var woken := Wake(up.(queue := up.queue + [m]), false);
                Writeables(woken, |l.queue| + 1).log == Written(l.queue + [m])
                  && Writeables(woken, |l.queue| + 1).queue == [])
  {
    var up := Establish(t, l, now);
    Drains(Timer(t, up, tick, false).0);
    Drains(Wake(up.(queue := up.queue + [m]), false));
    assert [] + Written(l.queue + [m]) == Written(l.queue + [m]);
  }

  // ---- Timed runs ----

  /**
   A client at a time; `up` is whether the connection has been established and has not gone. The messages
   accepted so far, those handed to lws_write and those flushed are recorded over all connections.
   */
  datatype Timed = Timed(
    link: Link,
    now: int,
    up: bool,
    over: bool,           // v1's service thread has left its loop and flushed
    accepted: seq<Msg>,
    handed: seq<Msg>,
    flushed: seq<Msg>)

  datatype Event =
    | Established
    | Writes(written: bool)
    | TimerDue(taken: bool)
    | PongArrives
    | Send(m: Msg)
    | WakeUp(stopping: bool)
    | Lost
    | Finish
    | Tick(to: int)

  predicate Enabled(s: Timed, e: Event) {
    match e
    case Established => !s.up && !s.over
    case Writes(_) => s.up && s.link.writable
    case TimerDue(_) => s.up && s.link.timer.Some? && s.now >= s.link.timer.value
    case PongArrives => s.up
    case Send(_) => true
    case WakeUp(_) => s.up
    case Lost => s.up
    case Finish => !s.over
    case Tick(to) => to >= s.now
  }

  function Apply(t: Times, s: Timed, e: Event): Timed {
    match e
    case Established => s.(link := Establish(t, s.link, s.now), up := true)
    case Writes(w) =>
      var (l, closes) := Writeable(s.link, w);
      s.(link := l, up := !closes,
         handed := if !s.link.sendPing && s.link.queue != [] then s.handed + [s.link.queue[0]] else s.handed)
    case TimerDue(taken) => var (l, closes) := Timer(t, s.link, s.now, taken); s.(link := l, up := !closes)
    case PongArrives => s.(link := ReceivePong(t, s.link, s.now))
    case Send(m) => s.(link := s.link.(queue := s.link.queue + [m]), accepted := s.accepted + [m])
    case WakeUp(stopping) => s.(link := Wake(s.link, stopping))
    case Lost => s.(up := false)
    case Finish => s.(link := s.link.(queue := []), up := false, over := true, flushed := s.flushed + s.link.queue)
    case Tick(to) => s.(now := to)
  }

  predicate IsRun(t: Times, s: Timed, es: seq<Event>)
    decreases |es|
  {
    es == [] || (Enabled(s, es[0]) && IsRun(t, Apply(t, s, es[0]), es[1..]))
  }

  function After(t: Times, s: Timed, es: seq<Event>): Timed
    decreases |es|
  {
    if es == [] then s else After(t, Apply(t, s, es[0]), es[1..])
  }

  function Start(now: int): Timed {
    Timed(Link(false, false, [], [], None, false), now, false, false, [], [], [])
  }

  // ---- The backlog drains in every run ----

  /** No new message, no TIMER, no failing write and no end of the connection. */
  predicate Draining(e: Event) {
    e == Writes(true) || e == PongArrives || e.WakeUp? || e.Tick?
  }

  predicate AllDraining(es: seq<Event>) {
    es == [] || (Draining(es[0]) && AllDraining(es[1..]))
  }

  function CountWrites(es: seq<Event>): nat {
    if es == [] then 0 else (if es[0].Writes? then 1 else 0) + CountWrites(es[1..])
  }

  lemma DrainingStep(t: Times, s: Timed, e: Event)
    requires s.up && (Work(s.link) > 0 ==> s.link.writable) && Enabled(s, e) && Draining(e)
    ensures var r := Apply(t, s, e);
            && r.up && (Work(r.link) > 0 ==> r.link.writable) && r.handed + r.link.queue == s.handed + s.link.queue
            && Work(r.link) == if e.Writes? && Work(s.link) > 0 then Work(s.link) - 1 else Work(s.link)
  {
    if e.Writes? && s.link.queue != [] {
      assert s.link.queue == [s.link.queue[0]] + s.link.queue[1..];
    }
  }

  /**
   Whatever wake-ups, PONGs and time come in between, each WRITEABLE does one piece of the work, the next one stays
   requested while work remains, and no message is lost on the way.
   */
  lemma {:induction false} DrainsInRun(t: Times, s: Timed, es: seq<Event>)
    requires s.up && (Work(s.link) > 0 ==> s.link.writable) && IsRun(t, s, es) && AllDraining(es)
    ensures var r := After(t, s, es);
            && r.up && (Work(r.link) > 0 ==> r.link.writable) && r.handed + r.link.queue == s.handed + s.link.queue
            && Work(r.link) == if CountWrites(es) <= Work(s.link) then Work(s.link) - CountWrites(es) else 0
    decreases |es|
  {
    hide Work, Apply, Enabled, Draining;
    if es != [] {
      DrainingStep(t, s, es[0]);
      DrainsInRun(t, Apply(t, s, es[0]), es[1..]);
    }
  }

  /** What starts it: a default TIMER with no PING unanswered, or a send with the wake-up it owes. */
  predicate StartsDrain(s: Timed, e: Event) {
    || (e == TimerDue(false) && !s.link.pingPending)
    || e == WakeUp(false)
  }

  /**
   In every reachable state with a connection, the queue is handed over whole and in order once the default tick or the
   wake-up has come, after as many WRITEABLEs as there are messages, and one for a PING that is due.
   */
  lemma BacklogDrainsInRun(t: Times, start: int, before: seq<Event>, e: Event, es: seq<Event>)
    requires IsRun(t, Start(start), before)
    requires var s := After(t, Start(start), before); s.up && Enabled(s, e) && StartsDrain(s, e)
    requires IsRun(t, Apply(t, After(t, Start(start), before), e), es) && AllDraining(es)
    requires CountWrites(es) > |After(t, Start(start), before).link.queue|
    ensures var s := After(t, Start(start), before); var r := After(t, Apply(t, s, e), es);
            r.up && r.link.queue == [] && !r.link.sendPing && r.handed == s.handed + s.link.queue
  {
    var s := After(t, Start(start), before);
    PingInvAlways(t, Start(start), before);
    DrainsInRun(t, Apply(t, s, e), es);
    var r := After(t, Apply(t, s, e), es);
    assert r.handed + [] == r.handed;
  }

  // ---- What can happen ----

  function Repeat(n: nat): seq<Event> {
    if n == 0 then [] else [Writes(true)] + Repeat(n - 1)
  }

  lemma {:induction false} RunsOn(t: Times, s: Timed, xs: seq<Event>, ys: seq<Event>)
    requires IsRun(t, s, xs) && IsRun(t, After(t, s, xs), ys)
    ensures IsRun(t, s, xs + ys) && After(t, s, xs + ys) == After(t, After(t, s, xs), ys)
    decreases |xs|
  {
    hide Apply, Enabled;
    if xs == [] {
      assert xs + ys == ys;
    } else {
      assert (xs + ys)[0] == xs[0] && (xs + ys)[1..] == xs[1..] + ys;
      RunsOn(t, Apply(t, s, xs[0]), xs[1..], ys);
    }
  }

  /** As many WRITEABLEs as there is work can come one after the other, and do it all. */
  lemma {:induction false} WorkGetsDone(t: Times, s: Timed)
    requires s.up && (Work(s.link) > 0 ==> s.link.writable)
    ensures IsRun(t, s, Repeat(Work(s.link)))
    ensures var r := After(t, s, Repeat(Work(s.link)));
            && r.up && Work(r.link) == 0 && r.handed == s.handed + s.link.queue && r.accepted == s.accepted
            && r.now == s.now && r.over == s.over
    decreases Work(s.link)
  {
    if Work(s.link) > 0 {
      DrainingStep(t, s, Writes(true));
      var r := Apply(t, s, Writes(true));
      WorkGetsDone(t, r);
      assert Repeat(Work(s.link))[1..] == Repeat(Work(r.link));
    } else {
      assert s.handed + s.link.queue == s.handed;
    }
  }

  lemma Arrives(t: Times, s: Timed, m: Msg) returns (es: seq<Event>)
    requires !s.over
    ensures IsRun(t, s, es)
    ensures var r := After(t, s, es);
            && r.up && Work(r.link) > 0 && r.link.writable && r.handed == s.handed && r.accepted == s.accepted + [m]
            && r.link.queue == s.link.queue + [m]
  {
    var up := [Established, Send(m), WakeUp(false)];
    es := if s.up then [Lost] + up else up;
    assert up[1..] == [Send(m), WakeUp(false)] && up[1..][1..] == [WakeUp(false)] && up[1..][1..][1..] == [];
    var s0 := if s.up then Apply(t, s, Lost) else s;
    var s1 := Apply(t, s0, Established);
    var s2 := Apply(t, s1, Send(m));
    var s3 := Apply(t, s2, WakeUp(false));
    assert IsRun(t, s3, []) && After(t, s3, []) == s3;
    assert IsRun(t, s2, up[1..][1..]) && After(t, s2, up[1..][1..]) == s3;
    assert IsRun(t, s1, up[1..]) && After(t, s1, up[1..]) == s3;
    assert IsRun(t, s0, up) && After(t, s0, up) == s3;
    assert s.up ==> es[0] == Lost && es[1..] == up;
  }

  /**
   No message is ever stuck for good: from every reachable state before the end of the service thread, over another
   connection if need be, some run hands over all that was accepted and one message more.
   */
  lemma EverythingCanGoOut(t: Times, start: int, before: seq<Event>, m: Msg) returns (es: seq<Event>)
    requires IsRun(t, Start(start), before) && !After(t, Start(start), before).over
    ensures var s := After(t, Start(start), before);
            IsRun(t, s, es) && After(t, s, es).handed == s.accepted + [m] && After(t, s, es).up
  {
    var s := After(t, Start(start), before);
    ConservedAlways(t, Start(start), before);
    var first := Arrives(t, s, m);
    hide IsRun, After;
    var r := After(t, s, first);
    WorkGetsDone(t, r);
    RunsOn(t, s, first, Repeat(Work(r.link)));
    es := first + Repeat(Work(r.link));
    assert s.handed + [] == s.handed;
  }

  /** A write that fails costs the message being written and the connection, and nothing else. */
  lemma FailedWriteCloses(t: Times, s: Timed)
    requires Enabled(s, Writes(false)) && !s.link.sendPing && s.link.queue != []
    ensures var r := Apply(t, s, Writes(false));
            !r.up && r.handed == s.handed + [s.link.queue[0]] && r.link.queue == s.link.queue[1..]
  {
  }

  /** v1's service thread can end at any time; after that nothing is handed over, and what is sent stays queued. */
  lemma {:induction false} AfterTheEnd(t: Times, s: Timed, es: seq<Event>)
    requires s.over && !s.up && IsRun(t, s, es)
    ensures var r := After(t, s, es); r.over && !r.up && r.handed == s.handed && r.flushed == s.flushed
    decreases |es|
  {
    if es != [] {
      AfterTheEnd(t, Apply(t, s, es[0]), es[1..]);
    }
  }

  lemma FinishEndsAll(t: Times, s: Timed, es: seq<Event>)
    requires !s.over && IsRun(t, Apply(t, s, Finish), es)
    ensures Enabled(s, Finish)
    ensures var r := After(t, Apply(t, s, Finish), es);
            r.over && !r.up && r.handed == s.handed && r.flushed == s.flushed + s.link.queue
  {
    AfterTheEnd(t, Apply(t, s, Finish), es);
  }

  /** A connection with no PING under way, and no message to write. */
  predicate Idle(s: Timed) {
    && s.up && !s.link.sendPing && !s.link.pingPending && s.link.queue == [] && !s.link.writable
    && s.link.timer.Some? && s.link.timer.value >= s.now
  }

  lemma Step2(t: Times, s: Timed, a: Event, b: Event)
    requires Enabled(s, a) && Enabled(Apply(t, s, a), b)
    ensures IsRun(t, s, [a, b]) && After(t, s, [a, b]) == Apply(t, Apply(t, s, a), b)
  {
    hide Apply, Enabled;
    assert [a, b][1..] == [b] && [b][1..] == [];
    var r := Apply(t, Apply(t, s, a), b);
    assert IsRun(t, r, []) && After(t, r, []) == r;
    assert IsRun(t, Apply(t, s, a), [b]) && After(t, Apply(t, s, a), [b]) == r;
  }

  /** The TIMER of an idle connection asks for a PING, and the WRITEABLE writes it. */
  lemma PingGoesOut(t: Times, s: Timed) returns (es: seq<Event>)
    requires Idle(s)
    ensures IsRun(t, s, es) && PongArrives !in es
    ensures var r := After(t, s, es);
            && r.up && r.link.pingPending && !r.link.sendPing && r.link.queue == [] && !r.link.writable
            && r.link.log == s.link.log + [Ping] && r.now == s.link.timer.value
            && r.link.timer == Some(r.now + t.pongTimeout)
  {
    var a, b, c := Event.Tick(s.link.timer.value), TimerDue(false), Writes(true);
    var s1 := Apply(t, s, a);
    var s2 := Apply(t, s1, b);
    Step2(t, s, a, b);
    OneEvent(t, s2, c);
    RunsOn(t, s, [a, b], [c]);
    es := [a, b] + [c];
  }

  /** A peer that answers is kept: the connection is idle again, and its next TIMER is due after the interval. */
  lemma AnswerKeepsUp(t: Times, s: Timed) returns (es: seq<Event>)
    requires Idle(s)
    ensures IsRun(t, s, es) && PongArrives in es
    ensures var r := After(t, s, es);
            Idle(r) && r.now == s.link.timer.value && r.link.timer == Some(r.now + t.interval)
  {
    var first := PingGoesOut(t, s);
    hide IsRun, After;
    var r := After(t, s, first);
    OneEvent(t, r, PongArrives);
    RunsOn(t, s, first, [PongArrives]);
    es := first + [PongArrives];
  }

  /** A peer that does not answer is cut off, pong_timeout after the PING. */
  lemma SilenceCloses(t: Times, s: Timed) returns (es: seq<Event>)
    requires Idle(s)
    ensures IsRun(t, s, es) && PongArrives !in es
    ensures var r := After(t, s, es); !r.up && r.now == s.link.timer.value + t.pongTimeout
  {
    var first := PingGoesOut(t, s);
    hide IsRun, After;
    var r := After(t, s, first);
    var late := Event.Tick(r.link.timer.value);
    Step2(t, r, late, TimerDue(false));
    RunsOn(t, s, first, [late, TimerDue(false)]);
    es := first + [late, TimerDue(false)];
  }

  lemma OneEvent(t: Times, s: Timed, e: Event)
    requires Enabled(s, e)
    ensures IsRun(t, s, [e]) && After(t, s, [e]) == Apply(t, s, e)
  {
    hide Apply, Enabled;
    assert [e][1..] == [];
    assert IsRun(t, Apply(t, s, e), []) && After(t, Apply(t, s, e), []) == Apply(t, s, e);
  }

  // ---- Why TIMER closes ----

  /** A PING on this connection with no PONG after it. */
  ghost predicate Unanswered(log: seq<Item>) {
    exists i :: 0 <= i < |log| && log[i] == Ping && Pong !in log[i + 1..]
  }

  lemma UnansweredSnoc(log: seq<Item>, x: Item)
    ensures Unanswered(log + [x]) <==> x == Ping || (x != Pong && Unanswered(log))
  {
    var all := log + [x];
    if x == Ping {
      assert all[|log|] == Ping && all[|log| + 1..] == [];
    }
    forall i | 0 <= i < |log|
      ensures all[i + 1..] == log[i + 1..] + [x] && all[i] == log[i]
    {
    }
  }

  ghost predicate PingInv(s: Timed) {
    s.up ==> (s.link.pingPending <==> Unanswered(s.link.log)) && (s.link.sendPing ==> s.link.writable)
  }

  lemma PingInvStep(t: Times, s: Timed, e: Event)
    requires PingInv(s) && Enabled(s, e)
    ensures PingInv(Apply(t, s, e))
  {
    match e
    case Writes(_) =>
      UnansweredSnoc(s.link.log, Ping);
      if s.link.queue != [] {
        UnansweredSnoc(s.link.log, Data(s.link.queue[0]));
      }
    case PongArrives => UnansweredSnoc(s.link.log, Pong);
    case _ =>
  }

  lemma {:induction false} PingInvAlways(t: Times, s: Timed, es: seq<Event>)
    requires PingInv(s) && IsRun(t, s, es)
    ensures PingInv(After(t, s, es))
    decreases |es|
  {
    if es != [] {
      PingInvStep(t, s, es[0]);
      PingInvAlways(t, Apply(t, s, es[0]), es[1..]);
    }
  }

  /**
   A TIMER that no hook takes care of closes the connection exactly when a PING has been handed to lws_write on
   this same connection and no PONG has come since; one that a hook takes care of never does.
   */
  lemma TimerClosesIff(t: Times, start: int, es: seq<Event>, taken: bool)
    requires IsRun(t, Start(start), es)
    ensures var s := After(t, Start(start), es);
            Enabled(s, TimerDue(taken)) ==> (!Apply(t, s, TimerDue(taken)).up <==> !taken && Unanswered(s.link.log))
  {
    PingInvAlways(t, Start(start), es);
  }

  // ---- A silent peer is cut off ----

  /** No hook takes care of a TIMER. */
  predicate NoHook(es: seq<Event>) {
    es == [] || (es[0] != TimerDue(true) && NoHook(es[1..]))
  }

  ghost predicate Armed(t: Times, s: Timed) {
    s.up ==>
      && s.link.timer.Some?
      && s.link.timer.value <= s.now + Max(t.interval, t.pongTimeout)
      && (!s.link.sendPing && !s.link.pingPending ==> s.link.timer.value <= s.now + t.interval)
  }

  lemma {:induction false} ArmedAlways(t: Times, s: Timed, es: seq<Event>)
    requires Armed(t, s) && IsRun(t, s, es) && NoHook(es)
    ensures Armed(t, After(t, s, es))
    decreases |es|
  {
    if es != [] {
      ArmedAlways(t, Apply(t, s, es[0]), es[1..]);
    }
  }

  /** No PONG is received and no new connection is established. */
  predicate Silent(es: seq<Event>) {
    es == [] || (es[0] != PongArrives && es[0] != Established && Silent(es[1..]))
  }

  /**
   lws fires a timer when it is due, so time does not run past it; and the WRITEABLE that a
   TIMER asked for, and that writes the PING, comes before the next TIMER.
   */
  predicate Prompt(t: Times, s: Timed, es: seq<Event>)
    decreases |es|
  {
    es == [] || (PromptStep(s, es[0]) && Prompt(t, Apply(t, s, es[0]), es[1..]))
  }

  predicate PromptStep(s: Timed, e: Event) {
    match e
    case TimerDue(_) => !s.link.sendPing
    case Tick(to) => s.up && s.link.timer.Some? ==> to <= s.link.timer.value
    case _ => true
  }

  /** Why a connection that is silent since time s goes in time: when the next timer, or the one after it, is due. */
  ghost predicate Doomed(t: Times, s: Timed, since: int) {
    s.up ==>
      var latest := since + t.interval + if s.link.sendPing || s.link.pingPending then t.pongTimeout else 0;
      && s.link.timer.Some? && s.link.timer.value <= latest && s.now <= latest
      && (s.link.sendPing ==> s.link.writable)
  }

  lemma {:induction false} DoomedAlways(t: Times, s: Timed, since: int, es: seq<Event>)
    requires Doomed(t, s, since) && IsRun(t, s, es) && Silent(es) && NoHook(es) && Prompt(t, s, es)
    ensures Doomed(t, After(t, s, es), since)
    decreases |es|
  {
    if es != [] {
      DoomedAlways(t, Apply(t, s, es[0]), since, es[1..]);
    }
  }

  /**
   A peer that is silent from the end of the run es on has been cut off, at the latest, when
   interval + pong_timeout have passed: whatever happens after es, a connection that is still up is younger.
   */
  lemma SilentPeerIsClosed(t: Times, start: int, es: seq<Event>, more: seq<Event>)
    requires IsRun(t, Start(start), es) && NoHook(es)
    requires IsRun(t, After(t, Start(start), es), more) && NoHook(more)
    requires Silent(more) && Prompt(t, After(t, Start(start), es), more)
    ensures var s := After(t, Start(start), es);
            After(t, s, more).up ==> After(t, s, more).now <= s.now + t.interval + t.pongTimeout
  {
    var s := After(t, Start(start), es);
    PingInvAlways(t, Start(start), es);
    ArmedAlways(t, Start(start), es);
    DoomedAlways(t, s, s.now, more);
  }

  // ---- When the next TIMER comes ----

  /** How long after the event e the next TIMER is due, if the event sets the timer. */
  predicate SetsTimer(e: Event) {
    e.TimerDue? || e == PongArrives || e == Established
  }

  predicate NoneSetsTimer(es: seq<Event>) {
    es == [] || (!SetsTimer(es[0]) && NoneSetsTimer(es[1..]))
  }

  lemma {:induction false} TimerStays(t: Times, s: Timed, es: seq<Event>)
    requires IsRun(t, s, es) && NoneSetsTimer(es)
    ensures After(t, s, es).link.timer == s.link.timer && (After(t, s, es).up ==> s.up)
    decreases |es|
  {
    if es != [] {
      TimerStays(t, Apply(t, s, es[0]), es[1..]);
    }
  }

  /**
   From any state: the TIMER that follows the event e is due, on a connection that is still up, exactly pong_timeout
   after a default TIMER, and exactly the interval after a PONG, an ESTABLISHED or a TIMER that a hook has taken care
   of; the last only if the interval is positive.
   */
  lemma NextTimerIff(t: Times, s: Timed, e: Event, es: seq<Event>, taken: bool)
    requires Enabled(s, e) && SetsTimer(e) && IsRun(t, Apply(t, s, e), es) && NoneSetsTimer(es)
    ensures var r := After(t, Apply(t, s, e), es);
            Enabled(r, TimerDue(taken)) <==>
              && r.up
              && r.now >= s.now + (if e == TimerDue(false) then t.pongTimeout else t.interval)
              && (e == TimerDue(true) ==> t.interval > 0)
  {
    TimerStays(t, Apply(t, s, e), es);
  }

  // ---- The account of the messages ----

  ghost predicate Conserved(s: Timed) {
    && s.accepted == s.handed + s.flushed + s.link.queue
    && (s.flushed != [] ==> s.over) && (s.over ==> !s.up)
  }

  lemma WritesConserves(t: Times, s: Timed, written: bool)
    requires Conserved(s) && Enabled(s, Writes(written))
    ensures Conserved(Apply(t, s, Writes(written)))
  {
    if s.link.queue != [] {
      assert s.link.queue == [s.link.queue[0]] + s.link.queue[1..];
    }
    assert s.flushed == [] && s.accepted == s.handed + s.link.queue;
  }

  lemma ConservedStep(t: Times, s: Timed, e: Event)
    requires Conserved(s) && Enabled(s, e)
    ensures Conserved(Apply(t, s, e))
  {
    if e.Writes? {
      WritesConserves(t, s, e.written);
    }
  }

  lemma {:induction false} ConservedAlways(t: Times, s: Timed, es: seq<Event>)
    requires Conserved(s) && IsRun(t, s, es)
    ensures Conserved(After(t, s, es))
    decreases |es|
  {
    if es != [] {
      ConservedStep(t, s, es[0]);
      ConservedAlways(t, Apply(t, s, es[0]), es[1..]);
    }
  }

  /**
   Over any number of connections, lost at any time, the accepted messages are those handed to lws_write, then
   those flushed at the end, then those still queued: a failing write, or a lost connection, costs none but the
   message being written.
   */
  lemma SendConservation(t: Times, start: int, es: seq<Event>)
    requires IsRun(t, Start(start), es)
    ensures var s := After(t, Start(start), es); s.accepted == s.handed + s.flushed + s.link.queue
  {
    ConservedAlways(t, Start(start), es);
  }
}
