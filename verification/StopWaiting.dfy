/**
 That wsp_client_stop waits for the end of the connection, and that the end of the connection ends the wait,
 in module StopProtocol.
 */
module StopWaiting {
  import opened Common
  import opened StopProtocol
  import opened StopInvariants
  import opened StopTheorems

  // ---- The end of the connection ends the wait ----

  /** The thread has found a wsi and has neither left the wait nor reached its deadline. */
  predicate Expects(p: App) {
    p == StopRouse || p.StopLoop? || p.StopWait? || p.StopWaiting? || (p.StopWoken? && !p.late)
  }

  /** While a stop expects the end of a connection and wsi is NULL, `stopped` is set or about to be. */
  ghost predicate ExpectInv(s: State) {
    s.wsi == 0 && !s.stopped && !s.svc.CbTest? && !s.svc.CbMark? ==>
      forall t :: 0 <= t < |s.apps| ==> !Expects(s.apps[t])
  }

  lemma AppExpects(s: State, a: Step)
    requires ExpectInv(s) && Enabled(s, a) && ByApp(a)
    ensures ExpectInv(Apply(s, a))
  {
    AppFrame(s, a);
    assert Expects(Moves(s, a)) ==> Expects(s.apps[a.t]) || s.wsi != 0;
    hide Enabled, Apply, Moves, Expects;
  }

  lemma ConnExpects(s: State, a: ConnAct)
    requires ConnInv(s) && ExpectInv(s) && ConnEnabled(s, a)
    ensures ExpectInv(ApplyConn(s, a))
  {
    assert NoLocks(s.svc) by {
      ConnNoLocks(s, a);
    }
    hide Expects;
  }

  lemma EndExpects(s: State, a: EndAct)
    requires StopInv(s) && ExpectInv(s) && EndEnabled(s, a)
    ensures ExpectInv(ApplyEnd(s, a))
  {
    EndFrame(s, a);
    if a == TestEnd {
      TestExpects(s);
    } else if a.Signal? {
      hide Expects;
    } else {
      hide Expects;
    }
  }

  /** A callback that finds `stopping` set goes on to set `stopped`, unless it is WSI_DESTROY and `stopped` is set. */
  lemma TestExpects(s: State)
    requires StopInv(s) && EndEnabled(s, TestEnd)
    ensures ExpectInv(ApplyEnd(s, TestEnd))
  {
    forall t | 0 <= t < |s.apps| && Expects(s.apps[t])
      ensures s.stopping
    {
      assert AppOk(s, s.apps[t]);
    }
  }

  lemma RestExpects(s: State, a: Step)
    requires ExpectInv(s) && Enabled(s, a) && (a.Schedules? || a.Writes? || a.Env?)
    ensures ExpectInv(Apply(s, a))
  {
    match a
    case Schedules(x) =>
      SchedFrame(s, x);
      hide ApplySched, Expects;
    case Writes(x) =>
      WriteFrame(s, x);
      hide ApplyWrite, Expects;
    case Env(x) =>
      EnvFrame(s, x);
      hide ApplyEnv, Expects;
  }

  lemma ExpectStep(s: State, a: Step)
    requires Inv(s) && ExpectInv(s) && Enabled(s, a)
    ensures ExpectInv(Apply(s, a))
  {
    hide ExpectInv, LockInv, MsgInv, ConnInv, EnterInv, StopInv;
    hide ApplyConn, ApplySched, ApplyEnd, ApplyWrite, ApplyEnv, ApplyStop, ApplyWait, ApplyFlush, ApplySend;
    match a
    case Connects(x) => ConnExpects(s, x);
    case Ends(x) => EndExpects(s, x);
    case Schedules(_) => RestExpects(s, a);
    case Writes(_) => RestExpects(s, a);
    case Env(_) => RestExpects(s, a);
    case _ => AppExpects(s, a);
  }

  lemma {:induction false} ExpectAlways(s: State, run: seq<Step>)
    requires Inv(s) && ExpectInv(s) && IsRun(s, run)
    ensures ExpectInv(After(s, run))
    decreases |run|
  {
    hide Apply, Enabled, Inv, ExpectInv;
    if run != [] {
      InvStep(s, run[0]);
      ExpectStep(s, run[0]);
      ExpectAlways(Apply(s, run[0]), run[1..]);
    }
  }

  /**
   In every reachable state a thread is blocked in wsp_client_stop only while there is a wsi, or the callback that has
   cleared it is on its way to pthread_cond_signal; so none is when the callback is over.
   */
  lemma EndOfConnectionEndsWait(s: State, run: seq<Step>, t: nat)
    requires Init(s) && IsRun(s, run)
    ensures var r := After(s, run);
            && (Blocked(r, t) ==> r.wsi != 0 || r.svc.CbTest? || r.svc.CbMark? || r.svc.CbSignal?)
            && (r.svc == Polling && r.wsi == 0 ==> !Blocked(r, t))
  {
    Reachable(s, run);
    InitInv(s);
    ExpectAlways(s, run);
    NoLostWakeUp(s, run, t, t);
    var r := After(s, run);
    hide IsRun, After, LockInv, StopInv, MsgInv, ConnInv, EnterInv;
    if Blocked(r, t) {
      assert Expects(r.apps[t]);
    }
  }

  // ---- A stop does wait ----

  /** Thread t has found a wsi, nobody has set `stopped`, and t does not give up before the time `until`. */
  ghost predicate StaysUntil(s: State, t: nat, until: int) {
    && t < |s.apps| && Expects(s.apps[t]) && !s.stopped
    && until <= if s.apps[t] == StopRouse then s.now + 3000 else Deadline(s.apps[t])
  }

  function Deadline(p: App): int {
    match p
    case StopLoop(dl) => dl
    case StopWait(dl) => dl
    case StopWaiting(dl) => dl
    case StopWoken(dl, _) => dl
    case _ => 0
  }

  lemma OwnStepStays(s: State, t: nat, a: Step, until: int)
    requires StaysUntil(s, t, until) && Enabled(s, a) && ByApp(a) && a.t == t
    ensures StaysUntil(Apply(s, a), t, until) || s.now >= until
  {
    AppFrame(s, a);
    hide ApplyStop, ApplyFlush, ApplySend;
  }

  /** Only the thread that stops the client can set `stopped` by itself, and that is t. */
  lemma OtherStepStays(s: State, t: nat, a: Step, until: int)
    requires StopInv(s) && StaysUntil(s, t, until) && Enabled(s, a) && ByApp(a) && a.t != t
    ensures StaysUntil(Apply(s, a), t, until)
  {
    AppFrame(s, a);
    OthersMarkNot(s, t);
    var p := s.apps[a.t];
    assert p != StopMark && !(a.Waits? && a.wait == Mark);
    hide Enabled, Apply, Moves, Expects, StopInv;
  }

  lemma OthersMarkNot(s: State, t: nat)
    requires StopInv(s) && t < |s.apps| && Expects(s.apps[t])
    ensures forall u :: 0 <= u < |s.apps| && u != t ==> s.apps[u] != StopMark
  {
    assert IsStopper(s.apps[t]);
    forall u | 0 <= u < |s.apps| && u != t
      ensures s.apps[u] != StopMark
    {
      assert !IsStopper(s.apps[u]);
    }
  }

  lemma EndStays(s: State, t: nat, a: EndAct, until: int)
    requires StaysUntil(s, t, until) && EndEnabled(s, a) && a != MarkEnd
    ensures StaysUntil(ApplyEnd(s, a), t, until)
  {
    EndFrame(s, a);
    hide ApplyEnd, EndEnabled;
  }

  lemma ServiceStays(s: State, t: nat, a: Step, until: int)
    requires StaysUntil(s, t, until) && Enabled(s, a) && !ByApp(a) && a != Ends(MarkEnd)
    ensures StaysUntil(Apply(s, a), t, until)
  {
    match a
    case Connects(x) =>
      ConnFrame(s, x);
      hide ApplyConn, Expects;
    case Schedules(x) =>
      SchedFrame(s, x);
      hide ApplySched, Expects;
    case Ends(x) => EndStays(s, t, x, until);
    case Writes(x) =>
      WriteFrame(s, x);
      hide ApplyWrite, Expects;
    case Env(x) =>
      EnvFrame(s, x);
      hide ApplyEnv, Expects;
  }

  lemma TimeGoesOn(s: State, a: Step)
    requires Enabled(s, a)
    ensures Apply(s, a).now >= s.now
  {
    match a
    case Connects(_) =>
    case Schedules(_) =>
    case Ends(x) =>
      EndFrame(s, x);
      hide ApplyEnd;
    case Writes(_) =>
    case Env(x) => EnvFrame(s, x);
    case _ =>
      AppFrame(s, a);
      hide Enabled, Apply, Moves;
  }

  lemma {:induction false} TimeNeverBack(s: State, run: seq<Step>)
    requires IsRun(s, run)
    ensures After(s, run).now >= s.now
    decreases |run|
  {
    hide Apply, Enabled;
    if run != [] {
      TimeGoesOn(s, run[0]);
      TimeNeverBack(Apply(s, run[0]), run[1..]);
    }
  }

  lemma {:induction false} StaysAlways(s: State, t: nat, run: seq<Step>, until: int)
    requires Inv(s) && StaysUntil(s, t, until) && IsRun(s, run) && Ends(MarkEnd) !in run
    ensures StaysUntil(After(s, run), t, until) || After(s, run).now >= until
    decreases |run|
  {
    hide Apply, Enabled, LockInv, StopInv, MsgInv, ConnInv, EnterInv, StaysUntil;
    if run != [] {
      var a := run[0];
      assert a in run;
      InvStep(s, a);
      if ByApp(a) {
        if a.t == t {
          OwnStepStays(s, t, a, until);
        } else {
          OtherStepStays(s, t, a, until);
        }
      } else {
        ServiceStays(s, t, a, until);
      }
      if s.now >= until {
        TimeNeverBack(s, run);
      } else {
        StaysAlways(Apply(s, a), t, run[1..], until);
      }
    }
  }

  /**
   A stop that finds a wsi waits: as long as no callback sets `stopped`, the thread stays where it expects the end of
   the connection until 3000 milliseconds have passed, and has neither flushed nor returned.
   */
  lemma StopWaits(s: State, before: seq<Step>, t: nat, more: seq<Step>)
    requires Init(s) && IsRun(s, before)
    requires var m := After(s, before); Enabled(m, Waits(t, ReadWsi)) && m.wsi != 0 && m.ctx && !m.stopped
    requires IsRun(Apply(After(s, before), Waits(t, ReadWsi)), more) && Ends(MarkEnd) !in more
    ensures var m := After(s, before); var r := After(Apply(m, Waits(t, ReadWsi)), more);
            r.now < m.now + 3000 ==> t < |r.apps| && Expects(r.apps[t]) && !r.stopped
  {
    Reachable(s, before);
    var m := After(s, before);
    var f := Apply(m, Waits(t, ReadWsi));
    InvStep(m, Waits(t, ReadWsi));
    WaitFrame(m, t, ReadWsi);
    assert StaysUntil(f, t, m.now + 3000);
    hide Apply, Enabled, IsRun, After, Inv;
    StaysAlways(f, t, more, m.now + 3000);
  }

  // ---- It does not wait longer ----

  predicate InTime(now: int, p: App) {
    p.StopLoop? || p.StopWait? || p.StopWaiting? || p.StopWoken? ==> Deadline(p) <= now + 3000
  }

  ghost predicate DeadlineInv(s: State) {
    forall t :: 0 <= t < |s.apps| ==> InTime(s.now, s.apps[t])
  }

  lemma DeadlineStep(s: State, a: Step)
    requires DeadlineInv(s) && Enabled(s, a)
    ensures DeadlineInv(Apply(s, a))
  {
    TimeGoesOn(s, a);
    if ByApp(a) {
      AppFrame(s, a);
      assert InTime(s.now, Moves(s, a)) by {
        assert InTime(s.now, s.apps[a.t]);
      }
      hide Enabled, Apply, Moves, InTime;
    } else {
      OthersKeepPlaces(s, a);
      hide Enabled, Apply;
    }
  }

  /** The service thread moves no thread, but for the one that it signals. */
  lemma OthersKeepPlaces(s: State, a: Step)
    requires Enabled(s, a) && !ByApp(a)
    ensures var r := Apply(s, a);
            |r.apps| == |s.apps| && forall t :: 0 <= t < |s.apps| ==>
              || r.apps[t] == s.apps[t]
              || (s.apps[t].StopWaiting? && r.apps[t] == StopWoken(s.apps[t].dl, false))
  {
    match a
    case Connects(x) =>
      ConnFrame(s, x);
      hide ApplyConn;
    case Schedules(x) =>
      SchedFrame(s, x);
      hide ApplySched;
    case Ends(x) =>
      EndFrame(s, x);
      hide ApplyEnd, EndEnabled;
    case Writes(x) =>
      WriteFrame(s, x);
      hide ApplyWrite;
    case Env(x) =>
      EnvFrame(s, x);
      hide ApplyEnv;
  }

  lemma {:induction false} DeadlineAlways(s: State, run: seq<Step>)
    requires DeadlineInv(s) && IsRun(s, run)
    ensures DeadlineInv(After(s, run))
    decreases |run|
  {
    hide Apply, Enabled, DeadlineInv;
    if run != [] {
      DeadlineStep(s, run[0]);
      DeadlineAlways(Apply(s, run[0]), run[1..]);
    }
  }

  /** In every reachable state the deadline of a thread that is blocked is at most 3000 milliseconds away. */
  lemma DeadlineIsNear(s: State, run: seq<Step>, t: nat)
    requires Init(s) && IsRun(s, run)
    ensures var r := After(s, run); Blocked(r, t) ==> r.apps[t].dl <= r.now + 3000
  {
    assert DeadlineInv(s);
    DeadlineAlways(s, run);
    var r := After(s, run);
    assert Blocked(r, t) ==> InTime(r.now, r.apps[t]);
  }
}
