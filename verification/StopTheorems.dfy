/**
 What holds in every run of module StopProtocol.
 */
module StopTheorems {
  import opened Common
  import opened SendQueue
  import opened StopProtocol
  import opened StopInvariants

  lemma Reachable(s: State, run: seq<Step>)
    requires Init(s) && IsRun(s, run)
    ensures Inv(After(s, run))
  {
    InitInv(s);
    InvAlways(s, run);
  }

  // ---- Connecting after a stop ----

  ghost predicate NoMoreConnects(s: State, r: State) {
    r.stopping && r.entered + Outstanding(r) <= s.entered + Outstanding(s)
  }

  lemma ConnStopping(s: State, a: ConnAct)
    requires ConnInv(s) && ConnEnabled(s, a) && s.stopping
    ensures NoMoreConnects(s, ApplyConn(s, a))
  {
  }

  lemma SchedStopping(s: State, a: SchedAct)
    requires SchedEnabled(s, a) && s.stopping
    ensures NoMoreConnects(s, ApplySched(s, a))
  {
  }

  lemma EndStopping(s: State, a: EndAct)
    requires EndEnabled(s, a) && s.stopping
    ensures NoMoreConnects(s, ApplyEnd(s, a))
  {
    EndFrame(s, a);
    assert ApplyEnd(s, a).svc != SulPassed && ApplyEnd(s, a).svc != PendTaken;
    hide ApplyEnd;
  }

  lemma WriteStopping(s: State, a: WriteAct)
    requires WriteEnabled(s, a) && s.stopping
    ensures NoMoreConnects(s, ApplyWrite(s, a))
  {
    WriteFrame(s, a);
    hide ApplyWrite;
  }

  lemma EnvStopping(s: State, a: EnvAct)
    requires EnvEnabled(s, a) && s.stopping
    ensures NoMoreConnects(s, ApplyEnv(s, a))
  {
    EnvFrame(s, a);
    hide ApplyEnv;
  }

  lemma AppStopping(s: State, a: Step)
    requires Enabled(s, a) && s.stopping && ByApp(a)
    ensures NoMoreConnects(s, Apply(s, a))
  {
    AppFrame(s, a);
    hide Enabled, Apply, Moves;
  }

  lemma StoppingStep(s: State, a: Step)
    requires ConnInv(s) && Enabled(s, a) && s.stopping
    ensures NoMoreConnects(s, Apply(s, a))
  {
    hide NoMoreConnects, ConnInv;
    hide ApplyConn, ApplySched, ApplyEnd, ApplyWrite, ApplyEnv, ApplyStop, ApplyWait, ApplyFlush, ApplySend;
    match a
    case Connects(x) => ConnStopping(s, x);
    case Schedules(x) => SchedStopping(s, x);
    case Ends(x) => EndStopping(s, x);
    case Writes(x) => WriteStopping(s, x);
    case Env(x) => EnvStopping(s, x);
    case _ => AppStopping(s, a);
  }

  lemma {:induction false} StoppingRun(s: State, run: seq<Step>)
    requires Inv(s) && IsRun(s, run) && s.stopping
    ensures var r := After(s, run);
            r.stopping && r.entered + Outstanding(r) <= s.entered + Outstanding(s)
    decreases |run|
  {
    hide Apply, Enabled, Outstanding, ConnInv;
    if run != [] {
      StoppingStep(s, run[0]);
      InvStep(s, run[0]);
      StoppingRun(Apply(s, run[0]), run[1..]);
    }
  }

  /**
   When a thread sets `stopping` after the run before, then whatever follows, at most one call of do_connect
   begins; and none, unless the service thread was already past the test in sul_reconnect_cb, or the client had
   not yet had its initial connect.
   */
  lemma AtMostOneConnectAfterStop(s: State, before: seq<Step>, t: nat, after: seq<Step>)
    requires Init(s) && IsRun(s, before) && Enabled(After(s, before), Stops(t, SetFlag))
    requires IsRun(Apply(After(s, before), Stops(t, SetFlag)), after)
    ensures var m := After(s, before);
            var r := After(Apply(m, Stops(t, SetFlag)), after);
            && r.entered <= 1
            && (m.svc != SulPassed && m.svc != PendTaken && m.pend == Consumed ==> r.entered == 0)
  {
    Reachable(s, before);
    var m := After(s, before);
    StopFrame(m, t, SetFlag);
    InvStep(m, Stops(t, SetFlag));
    StoppingRun(Apply(m, Stops(t, SetFlag)), after);
  }

  lemma {:induction false} RunAppend(s: State, xs: seq<Step>, ys: seq<Step>)
    requires IsRun(s, xs) && IsRun(After(s, xs), ys)
    ensures IsRun(s, xs + ys) && After(s, xs + ys) == After(After(s, xs), ys)
    decreases |xs|
  {
    hide Apply, Enabled;
    if xs == [] {
      assert xs + ys == ys;
    } else {
      assert (xs + ys)[1..] == xs[1..] + ys;
      RunAppend(Apply(s, xs[0]), xs[1..], ys);
    }
  }

  lemma Then(s: State, run: seq<Step>, a: Step) returns (longer: seq<Step>)
    requires IsRun(s, run) && Enabled(After(s, run), a)
    ensures IsRun(s, longer) && After(s, longer) == Apply(After(s, run), a)
  {
    hide Apply, Enabled;
    var r := After(s, run);
    assert [a][0] == a && [a][1..] == [];
    assert IsRun(Apply(r, a), []) && After(Apply(r, a), []) == Apply(r, a);
    assert IsRun(r, [a]) && After(r, [a]) == Apply(r, a);
    RunAppend(s, run, [a]);
    longer := run + [a];
  }

  /** wsp_client_stop, alone, up to the tests that come before `stopping` is set. */
  lemma PassesTests(s: State, before: seq<Step>, t: nat) returns (run: seq<Step>)
    requires IsRun(s, before)
    requires var m := After(s, before);
             t < |m.apps| && m.apps[t] == Outside && !m.stopping && !m.stopped && m.stopMu == Free
    ensures IsRun(s, run)
    ensures var m := After(s, before); After(s, run) == m.(apps := m.apps[t := StopSet], stopMu := By(t))
  {
    hide IsRun, After;
    var m := After(s, before);
    run := Then(s, before, Stops(t, BeginStop));
    run := Then(s, run, Stops(t, LockStop));
    run := Then(s, run, Stops(t, TestFlags));
    assert After(s, run).apps == m.apps[t := StopSet];
  }

  lemma SetsFlag(s: State, before: seq<Step>, t: nat) returns (run: seq<Step>)
    requires IsRun(s, before)
    requires var m := After(s, before); t < |m.apps| && m.apps[t] == StopSet && m.stopMu == By(t)
    ensures IsRun(s, run)
    ensures var m := After(s, before);
            After(s, run) == m.(apps := m.apps[t := StopCancel], stopping := true, stopMu := Free)
  {
    hide IsRun, After;
    var m := After(s, before);
    run := Then(s, before, Stops(t, SetFlag));
    run := Then(s, run, Stops(t, UnlockFlag));
    assert After(s, run).apps == m.apps[t := StopCancel];
  }

  /** And from there to the flush, when there is no connection. */
  lemma StopsUnconnected(s: State, before: seq<Step>, t: nat) returns (run: seq<Step>)
    requires IsRun(s, before)
    requires var m := After(s, before);
             t < |m.apps| && m.apps[t] == StopCancel && m.wsi == 0 && !m.sul && m.stopMu == Free
    ensures IsRun(s, run)
    ensures var m := After(s, before); After(s, run) == m.(apps := m.apps[t := FlushLock(m.now)], stopped := true)
  {
    hide IsRun, After;
    var m := After(s, before);
    run := Then(s, before, Stops(t, CancelSul));
    run := Then(s, run, Stops(t, Relock));
    run := Then(s, run, Waits(t, ReadWsi));
    run := Then(s, run, Waits(t, Mark));
    run := Then(s, run, Waits(t, UnlockWait));
    assert After(s, run).apps == m.apps[t := FlushLock(m.now)];
  }

  lemma FlushesNothing(s: State, before: seq<Step>, t: nat) returns (run: seq<Step>)
    requires IsRun(s, before)
    requires var m := After(s, before); t < |m.apps| && m.apps[t].FlushLock? && m.qMu == Free && m.queue == []
    ensures IsRun(s, run)
    ensures var m := After(s, before); After(s, run) == m.(apps := m.apps[t := Outside], silent := true)
  {
    hide IsRun, After;
    var m := After(s, before);
    run := Then(s, before, Flushes(t, LockFlush));
    run := Then(s, run, Flushes(t, Flush));
    run := Then(s, run, Flushes(t, UnlockFlush));
    assert After(s, run).apps == m.apps[t := Outside];
  }

  /** The service thread takes the client from `pending` and connects it, whatever the flags. */
  lemma ConnectsPending(s: State, before: seq<Step>) returns (run: seq<Step>)
    requires IsRun(s, before)
    requires var m := After(s, before); m.svc == Polling && m.pend == Queued && m.ctx && m.nextId > 0
    ensures IsRun(s, run)
    ensures var m := After(s, before); var r := After(s, run);
            && r.svc == Polling && r.wsi == m.nextId && r.live == m.live + {m.nextId}
            && r.stopped == m.stopped && r.silent == m.silent && r.apps == m.apps && r.stopMu == m.stopMu
            && r.entered == m.entered + if m.stopping then 1 else 0
  {
    hide IsRun, After;
    run := Then(s, before, Connects(TakePending));
    run := Then(s, run, Connects(EnterByPend));
    run := Then(s, run, Connects(GotHandle));
    run := Then(s, run, Connects(StoreWsi));
  }

  /**
   The one call of do_connect after a stop does happen: a client added to the pool and stopped before the service
   thread has consumed `pending` ends up with a live connection, although wsp_client_stop has returned.
   */
  lemma PendingClientConnectsAfterStop(s: State, t: nat) returns (run: seq<Step>)
    requires Init(s) && t < |s.apps|
    ensures IsRun(s, run)
    ensures var r := After(s, run);
            && r.stopped && r.silent && r.apps == s.apps && r.entered == 1
            && r.svc == Polling && r.wsi != 0 && r.live == {r.wsi}
  {
    hide IsRun, After;
    run := BecomesPending(s);
    run := PassesTests(s, run, t);
    run := SetsFlag(s, run, t);
    run := StopsUnconnected(s, run, t);
    run := FlushesNothing(s, run, t);
    run := ConnectsPending(s, run);
    assert s.apps[t := Outside] == s.apps;
  }

  /** Where a stop lets one more do_connect through: past the test of `stopping`, or the initial one still to come. */
  predicate StillConnects(m: State) {
    m.svc == SulPassed || m.svc == PendTaken || m.pend != Consumed
  }

  ghost predicate ConnectsIn(f: State, after: seq<Step>) {
    IsRun(f, after) && After(f, after).entered == 1
  }

  lemma BecomesPending(f: State) returns (after: seq<Step>)
    requires f.pend != Consumed
    ensures IsRun(f, after)
    ensures After(f, after) == f.(ctx := true, pend := Queued)
  {
    after := Then(f, [], Env(PublishCtx));
    if f.pend == NotAdded {
      hide IsRun, After;
      after := Then(f, after, Env(AddToPool));
    }
  }

  /** From such a state, once `stopping` is set, the service thread begins that do_connect by itself. */
  lemma ConnectsOnce(f: State) returns (after: seq<Step>)
    requires ConnInv(f) && f.entered == 0 && f.stopping && StillConnects(f)
    ensures ConnectsIn(f, after)
  {
    if f.svc == SulPassed {
      after := Then(f, [], Connects(EnterBySul));
    } else if f.svc == PendTaken {
      after := Then(f, [], Connects(EnterByPend));
    } else {
      after := BecomesPending(f);
      hide IsRun, After;
      after := ConnectsPending(f, after);
    }
  }

  /**
   When a stop is kept, exactly: when a thread sets `stopping` after the run before, a do_connect can begin
   afterwards if and only if the service thread was past the test in sul_reconnect_cb, or the initial connect of
   the client was still to come.
   */
  lemma ConnectAfterStopIff(s: State, before: seq<Step>, t: nat)
    requires Init(s) && IsRun(s, before) && Enabled(After(s, before), Stops(t, SetFlag))
    ensures var f := Apply(After(s, before), Stops(t, SetFlag));
            (exists after :: ConnectsIn(f, after)) <==> StillConnects(After(s, before))
  {
    Reachable(s, before);
    var m := After(s, before);
    var f := Apply(m, Stops(t, SetFlag));
    StopFrame(m, t, SetFlag);
    InvStep(m, Stops(t, SetFlag));
    assert f.entered == 0 && (StillConnects(f) <==> StillConnects(m));
    if StillConnects(m) {
      var after := ConnectsOnce(f);
    }
    forall after | ConnectsIn(f, after)
      ensures StillConnects(m)
    {
      AtMostOneConnectAfterStop(s, before, t, after);
    }
  }

  // ---- The stop handshake ----

  /** What no step of the service thread or from outside changes. */
  lemma ServiceFrame(s: State, a: Step)
    requires Enabled(s, a) && !ByApp(a)
    ensures var r := Apply(s, a);
            r.stopping == s.stopping && (s.stopped ==> r.stopped) && r.silent == s.silent && r.accepted == s.accepted
  {
    match a
    case Connects(x) =>
      ConnFrame(s, x);
      hide ApplyConn;
    case Schedules(x) =>
      SchedFrame(s, x);
      hide ApplySched;
    case Ends(x) =>
      EndFrame(s, x);
      hide ApplyEnd;
    case Writes(x) =>
      WriteFrame(s, x);
      hide ApplyWrite;
    case Env(x) =>
      EnvFrame(s, x);
      hide ApplyEnv;
  }

  lemma FlagsStep(s: State, a: Step)
    requires Enabled(s, a)
    ensures (s.stopping ==> Apply(s, a).stopping) && (s.stopped ==> Apply(s, a).stopped)
  {
    if ByApp(a) {
      AppFrame(s, a);
    } else {
      ServiceFrame(s, a);
    }
    hide Apply, Enabled;
  }

  /** Neither flag is ever cleared. */
  lemma {:induction false} FlagsStay(s: State, run: seq<Step>)
    requires IsRun(s, run)
    ensures (s.stopping ==> After(s, run).stopping) && (s.stopped ==> After(s, run).stopped)
    decreases |run|
  {
    hide Apply, Enabled;
    if run != [] {
      FlagsStep(s, run[0]);
      FlagsStay(Apply(s, run[0]), run[1..]);
    }
  }

  /**
   In every reachable state: stopped implies stopping; at most one thread is blocked on the condition variable;
   one that is blocked although `stopped` is set is about to be signalled; and a thread that has left the wait
   found `stopped` set or its deadline reached.
   */
  lemma NoLostWakeUp(s: State, run: seq<Step>, t: nat, u: nat)
    requires Init(s) && IsRun(s, run)
    ensures var r := After(s, run);
            && (r.stopped ==> r.stopping)
            && (Blocked(r, t) && Blocked(r, u) ==> t == u)
            && (Blocked(r, t) && r.stopped ==> r.svc.CbSignal?)
            && (t < |r.apps| && DoneWaiting(r.apps[t]) ==> r.stopped || r.now >= r.apps[t].dl)
  {
    Reachable(s, run);
    var r := After(s, run);
    assert Blocked(r, t) ==> IsStopper(r.apps[t]);
    assert Blocked(r, u) ==> IsStopper(r.apps[u]);
  }

  /** The one signal is enough: after it nobody is blocked. */
  lemma SignalReachesTheWaiter(s: State, run: seq<Step>, t: Option<nat>, u: nat)
    requires Init(s) && IsRun(s, run) && Enabled(After(s, run), Ends(Signal(t)))
    ensures !Blocked(Apply(After(s, run), Ends(Signal(t))), u)
  {
    Reachable(s, run);
    var r := After(s, run);
    SignalKeepsStop(r, t);
  }

  // ---- Silence ----

  lemma SilentSend(s: State, t: nat, a: SendAct)
    requires MsgInv(s) && t < |s.apps| && SendEnabled(s, s.apps[t], a) && s.silent
    ensures ApplySend(s, t, a).accepted == s.accepted
  {
    SendFrame(s, t, a);
    hide ApplySend, SendMoves;
  }

  lemma SilentStep(s: State, a: Step)
    requires MsgInv(s) && Enabled(s, a) && s.silent
    ensures Apply(s, a).silent && Apply(s, a).accepted == s.accepted
  {
    if ByApp(a) {
      AppFrame(s, a);
      if a.Sends? {
        SilentSend(s, a.t, a.send);
      }
    } else {
      ServiceFrame(s, a);
    }
    hide MsgInv, ApplySend, SendEnabled;
  }

  lemma {:induction false} SilentRun(s: State, run: seq<Step>)
    requires Inv(s) && IsRun(s, run) && s.silent
    ensures After(s, run).silent && After(s, run).accepted == s.accepted
    decreases |run|
  {
    hide MsgInv, Apply, Enabled;
    if run != [] {
      InvStep(s, run[0]);
      SilentStep(s, run[0]);
      SilentRun(Apply(s, run[0]), run[1..]);
    }
  }

  /** Once the thread that stops the client has flushed, the queue stays empty and no send is accepted any more. */
  lemma SilenceAfterStop(s: State, before: seq<Step>, after: seq<Step>)
    requires Init(s) && IsRun(s, before) && After(s, before).silent && IsRun(After(s, before), after)
    ensures var r := After(After(s, before), after);
            r.queue == [] && r.accepted == After(s, before).accepted
  {
    Reachable(s, before);
    SilentRun(After(s, before), after);
    InvAlways(After(s, before), after);
  }

  // ---- Messages and connections ----

  /** Accepted messages are handed to lws_write in order, once each, or flushed, or still queued; the limits hold. */
  lemma SendConservation(s: State, run: seq<Step>)
    requires Init(s) && IsRun(s, run)
    ensures var r := After(s, run);
            && r.accepted == r.handed + InFlight(r.svc) + r.flushed + r.queue
            && Within(r.limits, r.queue)
  {
    Reachable(s, run);
  }

  /**
   lws never keeps two connections for the client; do_connect begins, and the timer is armed, only while there is
   none; and between callbacks a wsi that is not NULL is the live connection.
   */
  lemma NeverTwoConnections(s: State, run: seq<Step>)
    requires Init(s) && IsRun(s, run)
    ensures var r := After(s, run);
            && |r.live| <= 1
            && (Enabled(r, Connects(EnterBySul)) || Enabled(r, Connects(EnterByPend)) || r.sul ==>
                 r.wsi == 0 && r.live == {})
            && (r.svc == Polling ==> r.live == if r.wsi == 0 then {} else {r.wsi})
  {
    Reachable(s, run);
    ConnInvMeans(After(s, run));
    hide *;
  }

  lemma ConnInvMeans(r: State)
    requires ConnInv(r)
    ensures && |r.live| <= 1
            && (Enabled(r, Connects(EnterBySul)) || Enabled(r, Connects(EnterByPend)) || r.sul ==>
                 r.wsi == 0 && r.live == {})
            && (r.svc == Polling ==> r.live == if r.wsi == 0 then {} else {r.wsi})
  {
  }
}
