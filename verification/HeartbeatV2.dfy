/**
 The heartbeat of src/ws_client_v2.c, whose default TIMER does not set the timer again.
 */
module HeartbeatV2 {
  import opened Common
  import H = Heartbeat

  /**
   The flags, whether the timer is armed, and whether a PING was owed or unanswered when it was armed: send_ping or
   ping_pending was set. The log has the PINGs and PONGs of this connection.
   */
  datatype Beat = Beat(sendPing: bool, pingPending: bool, armed: bool, owed: bool, log: seq<H.Item>)

  /** `taken` is whether a heartbeat hook has taken care of the TIMER. */
  datatype Event = Established | PingWritten | TimerDue(taken: bool) | PongArrives

  predicate Enabled(b: Beat, e: Event) {
    match e
    case PingWritten => b.sendPing
    case TimerDue(_) => b.armed
    case _ => true
  }

  /** lws_set_timer_usecs, which all callers call only for a positive interval. */
  function Arm(interval: nat, b: Beat): Beat {
    if interval > 0 then b.(armed := true, owed := b.sendPing || b.pingPending) else b
  }

  /** The second result is the return of -1. */
  function Apply(interval: nat, b: Beat, e: Event): (Beat, bool) {
    match e
    case Established => (Arm(interval, b.(pingPending := false, armed := false, log := [])), false)
    case PingWritten => (b.(sendPing := false, pingPending := true, log := b.log + [H.Ping]), false)
    case TimerDue(taken) =>
      if taken then (Arm(interval, b.(armed := false)), false)
      else if b.pingPending then (b.(armed := false), true)
      else (b.(sendPing := true, armed := false), false)
    case PongArrives => (Arm(interval, b.(pingPending := false, log := b.log + [H.Pong])), false)
  }

  const START := Beat(false, false, false, false, [])

  class BeatV2 {
    const interval: nat
    var sendPing: bool
    var pingPending: bool
    var armed: bool
    ghost var owed: bool
    ghost var log: seq<H.Item>

    ghost function Abs(): Beat
      reads this
    {
      Beat(sendPing, pingPending, armed, owed, log)
    }

    constructor (interval: nat)
      ensures Abs() == START && this.interval == interval
    {
      this.interval := interval;
      sendPing, pingPending, armed, owed, log := false, false, false, false, [];
    }

    method SetTimer()
      modifies this`armed, this`owed
      ensures Abs() == Arm(interval, old(Abs()))
    {
      if interval > 0 {
        armed, owed := true, sendPing || pingPending;
      }
    }

    method OnEstablished()
      modifies this
      ensures Abs() == Apply(interval, old(Abs()), Established).0
    {
      pingPending := false;
      armed, log := false, [];  // the connection is new to lws
      SetTimer();
    }

    /** The part of WRITEABLE that sends a PING. */
    method OnPingWritable()
      requires sendPing
      modifies this
      ensures Abs() == Apply(interval, old(Abs()), PingWritten).0
    {
      sendPing := false;
      pingPending := true;
      log := log + [H.Ping];
    }

    method OnTimer(hook: Option<bool>) returns (closes: bool)
      requires armed
      modifies this
      ensures (Abs(), closes) == Apply(interval, old(Abs()), TimerDue(hook == Some(true)))
    {
      armed := false;
      if hook.Some? {
        if hook.value {
          SetTimer();
          return false;
        }
      }
      if pingPending {
        return true;
      }
      sendPing := true;
      return false;
    }

    method OnPong()
      modifies this
      ensures Abs() == Apply(interval, old(Abs()), PongArrives).0
    {
      pingPending := false;
      log := log + [H.Pong];
      SetTimer();
    }
  }

  predicate IsRun(interval: nat, b: Beat, es: seq<Event>)
    decreases |es|
  {
    es == [] || (Enabled(b, es[0]) && IsRun(interval, Apply(interval, b, es[0]).0, es[1..]))
  }

  function After(interval: nat, b: Beat, es: seq<Event>): Beat
    decreases |es|
  {
    if es == [] then b else After(interval, Apply(interval, b, es[0]).0, es[1..])
  }

  ghost predicate Inv(interval: nat, b: Beat) {
    && !(b.sendPing && b.pingPending) && (b.pingPending <==> H.Unanswered(b.log))
    && (b.armed ==> interval > 0 && (b.sendPing ==> b.owed) && (b.pingPending <==> b.owed && !b.sendPing))
  }

  lemma {:induction false} InvAlways(interval: nat, b: Beat, es: seq<Event>)
    requires Inv(interval, b) && IsRun(interval, b, es)
    ensures Inv(interval, After(interval, b, es))
    decreases |es|
  {
    if es != [] {
      H.UnansweredSnoc(b.log, H.Ping);
      H.UnansweredSnoc(b.log, H.Pong);
      InvAlways(interval, Apply(interval, b, es[0]).0, es[1..]);
    }
  }

  /**
   When v2 cuts off a peer: TIMER closes exactly if no hook takes care of it and a PING has been written on this
   connection with no PONG since; and that is exactly if a PING was owed or unanswered already when the timer was
   armed, by ESTABLISHED, a PONG or a hook, and is not still to be written. A PING that a TIMER itself has asked for
   never leads to it.
   */
  lemma TimerClosesIff(interval: nat, es: seq<Event>, taken: bool)
    requires IsRun(interval, START, es)
    ensures var b := After(interval, START, es);
            Enabled(b, TimerDue(taken)) ==>
              && (Apply(interval, b, TimerDue(taken)).1 <==> !taken && H.Unanswered(b.log))
              && (H.Unanswered(b.log) <==> b.owed && !b.sendPing)
  {
    assert !H.Unanswered([]);
    InvAlways(interval, START, es);
  }

  // ---- Which TIMER comes ----

  predicate SetsTimer(e: Event) {
    e.TimerDue? || e == PongArrives || e == Established
  }

  lemma {:induction false} ArmedStays(interval: nat, b: Beat, es: seq<Event>)
    requires IsRun(interval, b, es) && forall e <- es :: !SetsTimer(e)
    ensures After(interval, b, es).armed == b.armed
    decreases |es|
  {
    if es != [] {
      assert es[0] in es;
      ArmedStays(interval, Apply(interval, b, es[0]).0, es[1..]);
    }
  }

  /**
   From every reachable state: with a positive interval, and only then, a TIMER is due next after an ESTABLISHED, a PONG
   or a TIMER that a hook has taken care of; after a default TIMER none is.
   */
  lemma NextTimerIff(interval: nat, before: seq<Event>, e: Event, es: seq<Event>, taken: bool)
    requires IsRun(interval, START, before)
    requires Enabled(After(interval, START, before), e) && SetsTimer(e)
    requires IsRun(interval, Apply(interval, After(interval, START, before), e).0, es)
    requires forall e' <- es :: !SetsTimer(e')
    ensures var b := After(interval, START, before); var r := After(interval, Apply(interval, b, e).0, es);
            Enabled(r, TimerDue(taken)) <==> interval > 0 && e != TimerDue(false)
  {
    assert !H.Unanswered([]);
    InvAlways(interval, START, before);
    ArmedStays(interval, Apply(interval, After(interval, START, before), e).0, es);
  }

  /**
   After a TIMER that no hook takes care of, no further TIMER is due, whatever happens but a PONG or a new
   connection: a peer that does not answer the PING it has asked for is not cut off.
   */
  lemma {:induction false} NoSecondTick(interval: nat, b: Beat, es: seq<Event>)
    requires !b.armed && IsRun(interval, b, es) && PongArrives !in es && Established !in es
    ensures !After(interval, b, es).armed && forall e <- es :: !e.TimerDue?
    decreases |es|
  {
    if es != [] {
      NoSecondTick(interval, Apply(interval, b, es[0]).0, es[1..]);
    }
  }

  /** A default TIMER that does not close asks for a PING, which is then written. */
  lemma TickAsksForPing(interval: nat, b: Beat)
    requires Enabled(b, TimerDue(false)) && !b.pingPending
    ensures var r := Apply(interval, b, TimerDue(false)).0;
            && !Apply(interval, b, TimerDue(false)).1 && Enabled(r, PingWritten)
            && Apply(interval, r, PingWritten).0 == b.(sendPing := false, pingPending := true, armed := false,
                                                       log := b.log + [H.Ping])
  {
  }

  /** That a TIMER closes does happen: a PONG that nothing has asked for arms the timer while the first PING is due. */
  lemma TimerCanClose(interval: nat) returns (es: seq<Event>)
    requires interval > 0
    ensures IsRun(interval, START, es)
    ensures var b := After(interval, START, es);
            Enabled(b, TimerDue(false)) && Apply(interval, b, TimerDue(false)).1 && b.log == [H.Pong, H.Ping]
  {
    es := [Established, TimerDue(false), PongArrives, PingWritten];
    var b1 := Apply(interval, START, es[0]).0;
    var b2 := Apply(interval, b1, es[1]).0;
    var b3 := Apply(interval, b2, es[2]).0;
    var b4 := Apply(interval, b3, es[3]).0;
    assert es[1..][1..][1..] == [PingWritten] && es[1..][1..][1..][1..] == [];
    assert IsRun(interval, b4, []) && After(interval, b4, []) == b4;
    assert IsRun(interval, b3, es[1..][1..][1..]) && After(interval, b3, es[1..][1..][1..]) == b4;
    assert IsRun(interval, b2, es[1..][1..]) && After(interval, b2, es[1..][1..]) == b4;
    assert IsRun(interval, b1, es[1..]) && After(interval, b1, es[1..]) == b4;
  }
}
