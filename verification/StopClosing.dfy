/**
 When wsp_client_stop returns with the connection still open, in module StopProtocol.
 */
module StopClosing {
  import opened Common
  import opened StopProtocol
  import opened StopInvariants
  import opened StopTheorems
  import opened StopProgress

  /** There is a connection, or lws is about to make one, or a do_connect can still come. */
  ghost predicate MayLive(s: State) {
    s.live != {} || s.svc == ConnCall || StillConnects(s)
  }

  // ---- Where there can be none there never is one again ----

  lemma ConnLeavesNone(s: State, a: ConnAct)
    requires ConnEnabled(s, a) && s.stopping && !MayLive(s)
    ensures !MayLive(ApplyConn(s, a))
  {
  }

  lemma SchedLeavesNone(s: State, a: SchedAct)
    requires SchedEnabled(s, a) && !MayLive(s)
    ensures !MayLive(ApplySched(s, a))
  {
  }

  lemma EndLeavesNone(s: State, a: EndAct)
    requires EndEnabled(s, a) && !MayLive(s)
    ensures !MayLive(ApplyEnd(s, a))
  {
    EndFrame(s, a);
    var r := ApplyEnd(s, a);
    assert r.live == {} && r.svc != ConnCall && r.svc != SulPassed && r.svc != PendTaken;
    hide ApplyEnd;
  }

  lemma WriteLeavesNone(s: State, a: WriteAct)
    requires WriteEnabled(s, a) && !MayLive(s)
    ensures !MayLive(ApplyWrite(s, a))
  {
    WriteFrame(s, a);
    hide ApplyWrite;
  }

  lemma EnvLeavesNone(s: State, a: EnvAct)
    requires EnvEnabled(s, a) && !MayLive(s)
    ensures !MayLive(ApplyEnv(s, a))
  {
    EnvFrame(s, a);
    hide ApplyEnv;
  }

  lemma AppLeavesNone(s: State, a: Step)
    requires Enabled(s, a) && ByApp(a) && !MayLive(s)
    ensures !MayLive(Apply(s, a))
  {
    AppFrame(s, a);
    hide Enabled, Apply, Moves;
  }

  lemma LeavesNone(s: State, a: Step)
    requires Enabled(s, a) && s.stopping && !MayLive(s)
    ensures !MayLive(Apply(s, a))
  {
    hide MayLive;
    hide ApplyConn, ApplySched, ApplyEnd, ApplyWrite, ApplyEnv, ApplyStop, ApplyWait, ApplyFlush, ApplySend;
    match a
    case Connects(x) => ConnLeavesNone(s, x);
    case Schedules(x) => SchedLeavesNone(s, x);
    case Ends(x) => EndLeavesNone(s, x);
    case Writes(x) => WriteLeavesNone(s, x);
    case Env(x) => EnvLeavesNone(s, x);
    case _ => AppLeavesNone(s, a);
  }

  lemma {:induction false} LeavesNoneAlways(s: State, run: seq<Step>)
    requires IsRun(s, run) && s.stopping && !MayLive(s)
    ensures !MayLive(After(s, run))
    decreases |run|
  {
    hide Apply, Enabled, MayLive;
    if run != [] {
      LeavesNone(s, run[0]);
      FlagsStep(s, run[0]);
      LeavesNoneAlways(Apply(s, run[0]), run[1..]);
    }
  }

  // ---- Where there can be one the stop can return before it is closed ----

  /** How far the holder of q_lock is from its unlock. */
  function Busy(s: State): nat {
    match s.qMu
    case Free => 0
    case By(u) => if u < |s.apps| then Rank(s.apps[u]) else 0
    case Svc => if s.svc == WriteTake then 2 else 1
  }

  lemma HoldersNext(p: App, u: nat)
    requires HoldsQueue(p)
    ensures NextOf(p, u).Flushes? || NextOf(p, u).Sends?
  {
  }

  /** One step of the thread that holds q_lock. */
  lemma AppReleases(s: State, u: nat) returns (r: State)
    requires LockInv(s) && s.qMu == By(u) && u < |s.apps|
    ensures var a := NextOf(s.apps[u], u); Enabled(s, a) && r == Apply(s, a)
    ensures r.live == s.live && r.stopMu == s.stopMu && |r.apps| == |s.apps| && Busy(r) < Busy(s)
    ensures (r.qMu == By(u) || r.qMu == Free) && forall t :: 0 <= t < |s.apps| && t != u ==> r.apps[t] == s.apps[t]
  {
    var a := NextOf(s.apps[u], u);
    AppHolderGoesOn(s, u);
    assert HoldsQueue(s.apps[u]);
    HoldersNext(s.apps[u], u);
    GoesOn(s, u);
    AppFrame(s, a);
    hide LockInv, NextOf, Enabled, Apply, Moves, Rank, NeedsStop, NeedsQueue, HoldsQueue;
    r := Apply(s, a);
  }

  lemma SvcReleases(s: State) returns (a: Step)
    requires LockInv(s) && s.qMu == Svc
    ensures Enabled(s, a)
    ensures var r := Apply(s, a);
            && r.live == s.live && r.stopMu == s.stopMu && r.apps == s.apps
            && Busy(r) < Busy(s) && (r.qMu == Svc || r.qMu == Free)
  {
    assert SvcHoldsQueue(s.svc);
    a := Writes(if s.svc == WriteTake then TakeNode else UnlockWrite);
    WriteFrame(s, a.write);
    hide ApplyWrite, LockInv;
  }

  /** Whoever holds q_lock, unless it is thread t, releases it; the connections and t stay as they are. */
  lemma {:induction false} ReleasesQueue(s: State, t: nat) returns (run: seq<Step>)
    requires Inv(s) && t < |s.apps|
    ensures IsRun(s, run)
    ensures var r := After(s, run);
            && r.live == s.live && r.stopMu == s.stopMu && |r.apps| == |s.apps| && r.apps[t] == s.apps[t]
            && (r.qMu == Free || r.qMu == By(t))
    decreases Busy(s)
  {
    if s.qMu == Free || s.qMu == By(t) {
      run := [];
    } else {
      var a, r;
      if s.qMu == Svc {
        a := SvcReleases(s);
        r := Apply(s, a);
      } else {
        a := NextOf(s.apps[s.qMu.t], s.qMu.t);
        r := AppReleases(s, s.qMu.t);
      }
      InvStep(s, a);
      hide Apply, Enabled, Inv, Busy, NextOf;
      var rest := ReleasesQueue(r, t);
      run := [a] + rest;
      assert run[0] == a && run[1..] == rest;
    }
  }

  lemma {:induction false} AloneKeepsConnections(s: State, run: seq<Step>, t: nat)
    requires IsRun(s, run) && Alone(run, t)
    ensures After(s, run).live == s.live
    decreases |run|
  {
    if run != [] {
      var a := run[0];
      assert a in run;
      if ByApp(a) {
        AppFrame(s, a);
      }
      hide ApplyStop, ApplyWait, ApplyFlush, ApplySend, Enabled, Moves;
      assert forall b <- run[1..] :: b in run;
      AloneKeepsConnections(Apply(s, a), run[1..], t);
    }
  }

  lemma Enters(f: State) returns (run: seq<Step>)
    requires f.svc == SulPassed || f.svc == PendTaken
    ensures IsRun(f, run)
    ensures var r := After(f, run); r.svc == ConnCall && r.apps == f.apps && r.stopMu == f.stopMu
  {
    run := Then(f, [], Connects(if f.svc == SulPassed then EnterBySul else EnterByPend));
  }

  lemma GetsHandle(f: State, before: seq<Step>) returns (run: seq<Step>)
    requires IsRun(f, before) && After(f, before).svc == ConnCall
    ensures IsRun(f, run)
    ensures var r := After(f, run); var m := After(f, before); r.live != {} && r.apps == m.apps && r.stopMu == m.stopMu
  {
    hide IsRun, After;
    run := Then(f, before, Connects(GotHandle));
    assert After(f, before).nextId in After(f, run).live;
  }

  /** A connection comes about without any step of the application. */
  lemma ComesToLive(f: State) returns (run: seq<Step>)
    requires ConnInv(f) && MayLive(f)
    ensures IsRun(f, run)
    ensures var r := After(f, run); r.live != {} && r.apps == f.apps && r.stopMu == f.stopMu
  {
    run := [];
    if f.live == {} {
      if f.svc == ConnCall {
        run := GetsHandle(f, []);
      } else if f.svc == SulPassed || f.svc == PendTaken {
        run := Enters(f);
        hide IsRun, After;
        run := GetsHandle(f, run);
      } else {
        run := BecomesPending(f);
        hide IsRun, After;
        run := ConnectsPending(f, run);
      }
    }
  }

  ghost predicate ReturnsOpen(f: State, t: nat, after: seq<Step>) {
    IsRun(f, after) && var r := After(f, after); t < |r.apps| && r.apps[t] == Outside && r.live != {}
  }

  lemma StopReturnsOpen(f: State, t: nat) returns (after: seq<Step>)
    requires Inv(f) && MayLive(f) && t < |f.apps| && (f.stopMu == Free || f.stopMu == By(t))
    ensures ReturnsOpen(f, t, after)
  {
    hide IsRun, After, LockInv, StopInv, MsgInv, ConnInv, EnterInv, MayLive;
    after := ComesToLive(f);
    InvAlways(f, after);
    var c := After(f, after);
    var more := ReleasesQueue(c, t);
    InvAlways(c, more);
    RunAppend(f, after, more);
    after := after + more;
    var d := After(f, after);
    var last := CallsComeToAnEnd(d, t);
    AloneKeepsConnections(d, last, t);
    RunAppend(f, after, last);
    after := after + last;
  }

  /**
   Whether a stop returns with the connection closed, exactly: when thread t sets `stopping` in a reachable state, its
   call can return while a connection lives if and only if there is one at that moment, or lws is about to make one,
   or a do_connect can still come.
   */
  lemma StopReturnsOpenIff(s: State, before: seq<Step>, t: nat)
    requires Init(s) && IsRun(s, before) && Enabled(After(s, before), Stops(t, SetFlag))
    ensures var m := After(s, before); var f := Apply(m, Stops(t, SetFlag));
            (exists after :: ReturnsOpen(f, t, after)) <==> MayLive(m)
  {
    Reachable(s, before);
    var m := After(s, before);
    var f := Apply(m, Stops(t, SetFlag));
    StopFrame(m, t, SetFlag);
    InvStep(m, Stops(t, SetFlag));
    assert m.apps[t] == StopSet && m.stopMu == By(t) && f.stopMu == By(t) && f.stopping;
    assert MayLive(f) <==> MayLive(m);
    if MayLive(m) {
      var after := StopReturnsOpen(f, t);
    }
    forall after | ReturnsOpen(f, t, after)
      ensures MayLive(m)
    {
      if !MayLive(f) {
        LeavesNoneAlways(f, after);
      }
    }
  }

  lemma FindsFlag(s: State, u: nat) returns (run: seq<Step>)
    requires u < |s.apps| && s.apps[u] == Outside && s.stopMu == Free && s.stopping
    ensures IsRun(s, run) && After(s, run) == s.(apps := s.apps[u := StopTest], stopMu := By(u))
  {
    run := Then(s, [], Stops(u, BeginStop));
    hide IsRun, After;
    run := Then(s, run, Stops(u, LockStop));
    assert After(s, run).apps == s.apps[u := StopTest];
  }

  /** A stop that is not the first returns at once and changes nothing, whether or not the connection is closed. */
  lemma LaterStopDoesNothing(s: State, u: nat) returns (run: seq<Step>)
    requires u < |s.apps| && s.apps[u] == Outside && s.stopMu == Free && s.stopping
    ensures IsRun(s, run) && After(s, run) == s
  {
    run := FindsFlag(s, u);
    hide IsRun, After;
    run := Then(s, run, Stops(u, TestFlags));
    run := Then(s, run, Stops(u, LeaveEarly));
    assert After(s, run).apps == s.apps;
  }

  // ---- The reconnect timer ----

  ghost predicate Unarmed(s: State) {
    s.stopping && !s.sul && !s.svc.SchedArm?
  }

  lemma ConnKeepsUnarmed(s: State, a: ConnAct)
    requires ConnEnabled(s, a) && Unarmed(s)
    ensures Unarmed(ApplyConn(s, a))
  {
  }

  lemma SchedKeepsUnarmed(s: State, a: SchedAct)
    requires SchedEnabled(s, a) && Unarmed(s)
    ensures Unarmed(ApplySched(s, a))
  {
  }

  lemma EndKeepsUnarmed(s: State, a: EndAct)
    requires EndEnabled(s, a) && Unarmed(s)
    ensures Unarmed(ApplyEnd(s, a))
  {
    EndFrame(s, a);
    assert !ApplyEnd(s, a).svc.SchedArm?;
    hide ApplyEnd;
  }

  lemma RestKeepsUnarmed(s: State, a: Step)
    requires Enabled(s, a) && Unarmed(s) && (a.Writes? || a.Env? || ByApp(a))
    ensures Unarmed(Apply(s, a))
  {
    match a
    case Writes(x) =>
      WriteFrame(s, x);
      hide ApplyWrite;
    case Env(x) =>
      EnvFrame(s, x);
      hide ApplyEnv;
    case _ =>
      AppFrame(s, a);
      hide Enabled, Apply, Moves;
  }

  lemma UnarmedStep(s: State, a: Step)
    requires Enabled(s, a) && Unarmed(s)
    ensures Unarmed(Apply(s, a))
  {
    hide Unarmed;
    hide ApplyConn, ApplySched, ApplyEnd, ApplyWrite, ApplyEnv, ApplyStop, ApplyWait, ApplyFlush, ApplySend;
    match a
    case Connects(x) => ConnKeepsUnarmed(s, x);
    case Schedules(x) => SchedKeepsUnarmed(s, x);
    case Ends(x) => EndKeepsUnarmed(s, x);
    case _ => RestKeepsUnarmed(s, a);
  }

  lemma {:induction false} UnarmedAlways(s: State, run: seq<Step>)
    requires IsRun(s, run) && Unarmed(s)
    ensures Unarmed(After(s, run))
    decreases |run|
  {
    hide Apply, Enabled, Unarmed;
    if run != [] {
      UnarmedStep(s, run[0]);
      UnarmedAlways(Apply(s, run[0]), run[1..]);
    }
  }

  ghost predicate Arms(f: State, after: seq<Step>) {
    IsRun(f, after) && After(f, after).sul
  }

  /**
   The stop cancels the reconnect timer for good, exactly: after lws_sul_cancel the timer can be armed again if and only
   if the service thread was past its test of `stopping` in schedule_reconnect.
   */
  lemma TimerAfterCancelIff(s: State, before: seq<Step>, t: nat)
    requires Init(s) && IsRun(s, before) && Enabled(After(s, before), Stops(t, CancelSul)) && After(s, before).ctx
    ensures var m := After(s, before);
            (exists after :: Arms(Apply(m, Stops(t, CancelSul)), after)) <==> m.svc.SchedArm?
  {
    Reachable(s, before);
    var m := After(s, before);
    var f := Apply(m, Stops(t, CancelSul));
    assert m.stopping by {
      assert AppOk(m, m.apps[t]);
    }
    assert f.svc == m.svc && f.stopping && !f.sul;
    if m.svc.SchedArm? {
      var after := Then(f, [], Schedules(ArmSul));
      assert Arms(f, after);
    }
    forall after | Arms(f, after)
      ensures m.svc.SchedArm?
    {
      if Unarmed(f) {
        UnarmedAlways(f, after);
      }
    }
  }
}
