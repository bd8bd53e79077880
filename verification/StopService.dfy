/**
 The service thread in module StopProtocol: its callbacks come to an end, a lost connection is tried again, and what
 the callbacks do when nobody gets in between.
 */
module StopService {
  import opened Common
  import opened SendQueue
  import opened StopProtocol
  import opened StopInvariants
  import opened StopTheorems
  import opened StopProgress

  // ---- Nothing happens before the context ----

  ghost predicate ContextInv(s: State) {
    !s.ctx ==> s.svc == Polling && s.pend != Consumed && s.wsi == 0 && !s.sul && s.nextId == 1
  }

  lemma ConnNeedsContext(s: State, a: ConnAct)
    requires ContextInv(s) && ConnEnabled(s, a)
    ensures ContextInv(ApplyConn(s, a))
  {
  }

  lemma EndNeedsContext(s: State, a: EndAct)
    requires ContextInv(s) && EndEnabled(s, a)
    ensures ContextInv(ApplyEnd(s, a))
  {
    assert s.ctx;
    EndFrame(s, a);
    hide ApplyEnd, EndEnabled;
  }

  lemma RestNeedsContext(s: State, a: Step)
    requires ContextInv(s) && Enabled(s, a) && !a.Connects? && !a.Ends?
    ensures ContextInv(Apply(s, a))
  {
    match a
    case Schedules(x) =>
      SchedFrame(s, x);
      hide ApplySched;
    case Writes(x) =>
      WriteFrame(s, x);
      hide ApplyWrite;
    case Env(_) =>
    case _ =>
      NextIdStays(s, a);
      AppFrame(s, a);
      hide Enabled, Apply, Moves;
  }

  lemma NextIdStays(s: State, a: Step)
    requires Enabled(s, a) && ByApp(a)
    ensures Apply(s, a).nextId == s.nextId
  {
    match a
    case Sends(t, x) =>
      SendFrame(s, t, x);
      hide ApplySend, Taken;
    case _ =>
  }

  lemma ContextStep(s: State, a: Step)
    requires ContextInv(s) && Enabled(s, a)
    ensures ContextInv(Apply(s, a))
  {
    hide ContextInv;
    hide ApplyConn, ApplySched, ApplyEnd, ApplyWrite, ApplyEnv, ApplyStop, ApplyWait, ApplyFlush, ApplySend;
    match a
    case Connects(x) => ConnNeedsContext(s, x);
    case Ends(x) => EndNeedsContext(s, x);
    case _ => RestNeedsContext(s, a);
  }

  lemma {:induction false} ContextAlways(s: State, run: seq<Step>)
    requires ContextInv(s) && IsRun(s, run)
    ensures ContextInv(After(s, run))
    decreases |run|
  {
    hide Apply, Enabled, ContextInv;
    if run != [] {
      ContextStep(s, run[0]);
      ContextAlways(Apply(s, run[0]), run[1..]);
    }
  }

  /** As long as the pool has no context the service thread does nothing, and the client keeps its initial connect. */
  lemma NothingBeforeContext(s: State, run: seq<Step>)
    requires Init(s) && IsRun(s, run)
    ensures var r := After(s, run); !r.ctx ==> r.svc == Polling && r.pend != Consumed && r.wsi == 0 && !r.sul
  {
    ContextAlways(s, run);
  }

  // ---- A lost connection is tried again ----

  /** Runs in which no hook refuses and no WSI_DESTROY comes. */
  predicate Plain(a: Step) {
    a != Schedules(HookRefuses) && !(a.Ends? && (a.end.DestroyNow? || a.end.DestroyInConnect?))
  }

  ghost predicate RetryInv(s: State) {
    && (AtEnd(s.svc) ==> !KindOf(s.svc).destroy)
    && (!s.stopping && s.svc.CbUnlock? ==> s.svc.retry)
    && (!s.stopping && s.pend == Consumed && s.wsi == 0 && s.svc == Polling ==> s.sul)
  }

  lemma ConnRetries(s: State, a: ConnAct)
    requires ConnInv(s) && RetryInv(s) && ConnEnabled(s, a)
    ensures RetryInv(ApplyConn(s, a))
  {
  }

  lemma SchedRetries(s: State, a: SchedAct)
    requires RetryInv(s) && SchedEnabled(s, a) && a != HookRefuses
    ensures RetryInv(ApplySched(s, a))
  {
  }

  lemma EndRetries(s: State, a: EndAct)
    requires StopInv(s) && RetryInv(s) && EndEnabled(s, a) && !a.DestroyNow? && !a.DestroyInConnect?
    ensures RetryInv(ApplyEnd(s, a))
  {
    EndFrame(s, a);
    var v := ApplyEnd(s, a).svc;
    assert v == Polling ==> s.svc.CbUnlock? && !s.svc.retry;
    assert s.svc.CbMark? || s.svc.CbSignal? ==> s.stopping;
    assert AtEnd(v) ==> !KindOf(v).destroy;
    assert v.CbUnlock? && !v.retry ==> s.svc.CbSignal?;
    hide ApplyEnd, EndEnabled, StopInv;
  }

  lemma WriteRetries(s: State, a: WriteAct)
    requires RetryInv(s) && WriteEnabled(s, a) && s.wsi != 0
    ensures RetryInv(ApplyWrite(s, a)) && ApplyWrite(s, a).wsi != 0
  {
    WriteFrame(s, a);
    WritePlaces(s, a);
    hide ApplyWrite, WriteEnabled;
  }

  lemma AppRetries(s: State, a: Step)
    requires StopInv(s) && RetryInv(s) && Enabled(s, a) && ByApp(a)
    ensures RetryInv(Apply(s, a))
  {
    AppFrame(s, a);
    assert a.Stops? && a.stop == CancelSul ==> s.stopping by {
      assert AppOk(s, s.apps[a.t]);
    }
    hide Enabled, Apply, Moves, StopInv;
  }

  predicate SvcWrites(v: Service) {
    v == WriteLock || v == WriteTake || v.WriteUnlock? || v.WriteSend?
  }

  /** In WRITEABLE there is a wsi. */
  ghost predicate WriteInv(s: State) {
    SvcWrites(s.svc) ==> s.wsi != 0
  }

  lemma EndWritesNot(s: State, a: EndAct)
    requires EndEnabled(s, a)
    ensures !SvcWrites(ApplyEnd(s, a).svc)
  {
  }

  lemma ConnWritesNot(s: State, a: ConnAct)
    requires ConnEnabled(s, a)
    ensures !SvcWrites(ConnMoves(s, a))
  {
  }

  lemma SchedWritesNot(s: State, a: SchedAct)
    requires SchedEnabled(s, a)
    ensures !SvcWrites(ApplySched(s, a).svc)
  {
  }

  lemma WriteKeepsWsi(s: State, a: WriteAct)
    requires WriteInv(s) && WriteEnabled(s, a)
    ensures WriteInv(ApplyWrite(s, a))
  {
    WriteFrame(s, a);
    hide ApplyWrite;
  }

  lemma WriteInvStep(s: State, a: Step)
    requires WriteInv(s) && Enabled(s, a)
    ensures WriteInv(Apply(s, a))
  {
    match a
    case Connects(x) =>
      ConnWritesNot(s, x);
      hide SvcWrites, ConnMoves;
    case Schedules(x) =>
      SchedWritesNot(s, x);
      hide ApplySched, SvcWrites, SchedEnabled;
    case Ends(x) =>
      EndWritesNot(s, x);
      hide ApplyEnd, SvcWrites, EndEnabled;
    case Writes(x) =>
      WriteKeepsWsi(s, x);
      hide WriteInv, ApplyWrite;
    case Env(x) =>
      EnvFrame(s, x);
      hide ApplyEnv, SvcWrites;
    case _ =>
      AppFrame(s, a);
      hide Enabled, Apply, Moves, SvcWrites;
  }

  lemma RetryStep(s: State, a: Step)
    requires Inv(s) && RetryInv(s) && WriteInv(s) && Enabled(s, a) && Plain(a)
    ensures RetryInv(Apply(s, a)) && WriteInv(Apply(s, a))
  {
    WriteInvStep(s, a);
    match a
    case Connects(x) =>
      ConnRetries(s, x);
      hide *;
    case Schedules(x) =>
      SchedRetries(s, x);
      hide RetryInv, ApplySched, Inv, WriteInv;
    case Ends(x) =>
      EndRetries(s, x);
      hide RetryInv, ApplyEnd, Inv, WriteInv;
    case Writes(x) =>
      assert s.wsi != 0;
      WriteRetries(s, x);
      hide RetryInv, ApplyWrite, Inv, WriteInv;
    case Env(x) =>
      EnvFrame(s, x);
      hide ApplyEnv, Inv, WriteInv;
    case _ =>
      AppRetries(s, a);
      hide RetryInv, Apply, Enabled, Inv, WriteInv;
  }

  lemma {:induction false} RetryAlways(s: State, run: seq<Step>)
    requires Inv(s) && RetryInv(s) && WriteInv(s) && IsRun(s, run) && forall a <- run :: Plain(a)
    ensures RetryInv(After(s, run))
    decreases |run|
  {
    hide Apply, Enabled, Inv, RetryInv, WriteInv, Plain;
    if run != [] {
      assert run[0] in run && forall a <- run[1..] :: a in run;
      InvStep(s, run[0]);
      RetryStep(s, run[0]);
      RetryAlways(Apply(s, run[0]), run[1..]);
    }
  }

  /**
   A client that is not stopping always comes back: in every reachable state between two callbacks, once its initial
   connect has been made, it has a wsi or its reconnect timer is armed; in runs without a hook that refuses and without
   WSI_DESTROY.
   */
  lemma AlwaysRetries(s: State, run: seq<Step>)
    requires Init(s) && IsRun(s, run) && forall a <- run :: Plain(a)
    ensures var r := After(s, run);
            !r.stopping && r.pend == Consumed && r.svc == Polling ==> r.wsi != 0 || r.sul
  {
    InitInv(s);
    RetryAlways(s, run);
  }

  // ---- Callbacks come to an end ----

  /** What the service thread does inside a callback; another error from the same connect call is not among it. */
  predicate InsideCallback(a: Step) {
    match a
    case Connects(x) => x != SulFires && x != TakePending
    case Schedules(_) => true
    case Ends(x) => !x.LostNow? && !x.ErrorInConnect? && !x.DestroyNow? && !x.DestroyInConnect?
    case Writes(x) => x != BeginWrite
    case _ => false
  }

  /** A bound on the steps to the end of the callback. */
  function SvcRank(v: Service): nat {
    match v
    case Polling => 0
    case SulTest => 19
    case SulPassed => 18
    case PendTaken => 18
    case ConnCall => 17
    case ConnFail => 8
    case ConnStore(_) => 7
    case SchedTest(inConnect) => if inConnect then 10 else 2
    case SchedArm(inConnect) => if inConnect then 9 else 1
    case CbLock(_) => 16
    case CbClear(_) => 15
    case CbTest(_) => 14
    case CbMark(_) => 13
    case CbSignal(_) => 12
    case CbUnlock(_, _) => 11
    case WriteLock => 4
    case WriteTake => 3
    case WriteUnlock(_) => 2
    case WriteSend(_) => 1
  }

  lemma ConnRanks(s: State, a: ConnAct)
    requires ConnEnabled(s, a) && a != SulFires && a != TakePending
    ensures SvcRank(ConnMoves(s, a)) < SvcRank(s.svc)
  {
  }

  lemma SchedRanks(s: State, a: SchedAct)
    requires SchedEnabled(s, a)
    ensures SvcRank(ApplySched(s, a).svc) < SvcRank(s.svc)
  {
  }

  lemma EndRanks(s: State, a: EndAct)
    requires EndEnabled(s, a) && !a.LostNow? && !a.ErrorInConnect? && !a.DestroyNow? && !a.DestroyInConnect?
    ensures SvcRank(ApplyEnd(s, a).svc) < SvcRank(s.svc)
  {
    var v := ApplyEnd(s, a).svc;
    if a == UnlockEnd || a == TestEnd {
      assert a == TestEnd ==> v.CbMark? || v.CbUnlock?;
      assert a == UnlockEnd ==> v.SchedTest? || v == ConnFail || v == Polling;
      hide ApplyEnd;
    }
  }

  lemma WriteRanks(s: State, a: WriteAct)
    requires WriteEnabled(s, a) && a != BeginWrite
    ensures SvcRank(WriteMoves(s, a)) < SvcRank(s.svc)
  {
  }

  lemma InsideRanks(s: State, a: Step)
    requires Enabled(s, a) && InsideCallback(a)
    ensures SvcRank(Apply(s, a).svc) < SvcRank(s.svc)
  {
    match a
    case Connects(x) =>
      ConnRanks(s, x);
      hide ConnMoves, SvcRank;
    case Schedules(x) => SchedRanks(s, x);
    case Ends(x) => EndRanks(s, x);
    case Writes(x) =>
      WriteRanks(s, x);
      hide WriteMoves, SvcRank;
  }

  lemma OutsideKeepsSvc(s: State, a: Step)
    requires Enabled(s, a) && (ByApp(a) || a.Env?)
    ensures Apply(s, a).svc == s.svc
  {
    if ByApp(a) {
      AppFrame(s, a);
    } else {
      EnvFrame(s, a.env);
    }
    hide Apply, Enabled, ApplyEnv;
  }

  function CountInside(run: seq<Step>): nat {
    if run == [] then 0 else (if InsideCallback(run[0]) then 1 else 0) + CountInside(run[1..])
  }

  /**
   However the other threads get in between, the service thread takes at most 19 steps before its callback is over; not
   counting the errors that lws reports from within one connect call, each of which takes at most 8 more.
   */
  lemma {:induction false} CallbacksComeToAnEnd(s: State, run: seq<Step>)
    requires IsRun(s, run) && forall a <- run :: InsideCallback(a) || ByApp(a) || a.Env?
    ensures CountInside(run) + SvcRank(After(s, run).svc) <= SvcRank(s.svc) <= 19
    decreases |run|
  {
    hide Apply, Enabled, InsideCallback;
    if run != [] {
      var a := run[0];
      assert a in run && forall b <- run[1..] :: b in run;
      if InsideCallback(a) {
        InsideRanks(s, a);
      } else {
        OutsideKeepsSvc(s, a);
      }
      RanksAreSmall(s.svc);
      hide SvcRank;
      CallbacksComeToAnEnd(Apply(s, a), run[1..]);
    } else {
      RanksAreSmall(s.svc);
    }
  }

  lemma RanksAreSmall(v: Service)
    ensures SvcRank(v) <= 19
  {
  }

  /** What can come next in a callback: lws, the hook and the locks decide between the alternatives. */
  lemma CallbackGoesOn(s: State)
    requires s.svc != Polling
    requires s.svc.CbLock? ==> s.stopMu == Free
    requires s.svc == WriteLock ==> s.qMu == Free
    ensures exists a :: InsideCallback(a) && Enabled(s, a)
    ensures s.svc == ConnCall ==> Enabled(s, Connects(GotHandle)) && Enabled(s, Connects(GoesWrong))
    ensures s.svc == ConnFail ==> Enabled(s, Connects(ReturnsNull)) && Enabled(s, Ends(ErrorInConnect))
    ensures s.svc == ConnFail ==> forall w :: 0 < w < s.nextId ==> Enabled(s, Ends(DestroyInConnect(w)))
    ensures s.svc.SchedArm? ==> Enabled(s, Schedules(ArmSul)) && Enabled(s, Schedules(HookRefuses))
  {
    var a := SvcStep(s);
    assert InsideCallback(a) && Enabled(s, a);
  }

  lemma SvcStep(s: State) returns (a: Step)
    requires s.svc != Polling
    requires s.svc.CbLock? ==> s.stopMu == Free
    requires s.svc == WriteLock ==> s.qMu == Free
    ensures InsideCallback(a) && Enabled(s, a)
  {
    match s.svc
    case SulTest => a := Connects(SulReads);
    case SulPassed => a := Connects(EnterBySul);
    case PendTaken => a := Connects(EnterByPend);
    case ConnCall => a := Connects(GotHandle);
    case ConnFail => a := Connects(ReturnsNull);
    case ConnStore(_) => a := Connects(StoreWsi);
    case SchedTest(_) => a := Schedules(SchedReads);
    case SchedArm(_) => a := Schedules(ArmSul);
    case CbLock(_) => a := Ends(LockEnd);
    case CbClear(_) => a := Ends(ClearWsi);
    case CbTest(_) => a := Ends(TestEnd);
    case CbMark(_) => a := Ends(MarkEnd);
    case CbSignal(_) =>
      var u := SomeBlocked(s);
      a := Ends(Signal(u));
    case CbUnlock(_, _) => a := Ends(UnlockEnd);
    case WriteLock => a := Writes(LockWrite);
    case WriteTake => a := Writes(TakeNode);
    case WriteUnlock(_) => a := Writes(UnlockWrite);
    case WriteSend(_) => a := Writes(HandOver);
  }

  // ---- What callbacks do when nobody gets in between ----

  /** CLOSED or CONNECTION_ERROR for the current connection, up to its look at `stopping`. */
  lemma ConnectionEnds(s: State, before: seq<Step>) returns (run: seq<Step>)
    requires IsRun(s, before)
    requires var m := After(s, before); m.svc == Polling && m.wsi != 0 && m.stopMu == Free && m.live == {m.wsi}
    ensures IsRun(s, run)
    ensures var m := After(s, before);
            After(s, run) == m.(live := {}, wsi := 0, stopMu := Svc, svc := CbTest(Kind(false, m.wsi, false)))
  {
    hide IsRun, After;
    var m := After(s, before);
    run := Then(s, before, Ends(LostNow));
    run := Then(s, run, Ends(LockEnd));
    run := Then(s, run, Ends(ClearWsi));
    assert m.live - {m.wsi} == {};
  }

  lemma EndUnlocks(s: State, before: seq<Step>) returns (run: seq<Step>)
    requires IsRun(s, before)
    requires var m := After(s, before); m.svc.CbTest? && !m.svc.k.destroy && !m.stopping
    ensures IsRun(s, run)
    ensures var m := After(s, before); After(s, run) == m.(stopMu := Free, svc := SchedTest(m.svc.k.inConnect))
  {
    hide IsRun, After;
    run := Then(s, before, Ends(TestEnd));
    run := Then(s, run, Ends(UnlockEnd));
  }

  lemma Schedules2(s: State, before: seq<Step>) returns (run: seq<Step>)
    requires IsRun(s, before)
    requires var m := After(s, before); m.svc.SchedTest? && !m.stopping
    ensures IsRun(s, run)
    ensures var m := After(s, before); After(s, run) == m.(sul := true, svc := Back(m.svc.inConnect))
  {
    hide IsRun, After;
    run := Then(s, before, Schedules(SchedReads));
    run := Then(s, run, Schedules(ArmSul));
  }

  /** The timer fires, and do_connect gets to lws. */
  lemma FiresAndConnects(s: State, before: seq<Step>) returns (run: seq<Step>)
    requires IsRun(s, before)
    requires var m := After(s, before); m.svc == Polling && m.sul && m.ctx && !m.stopping
    ensures IsRun(s, run)
    ensures var m := After(s, before); After(s, run) == m.(sul := false, svc := ConnCall)
  {
    hide IsRun, After;
    run := Then(s, before, Connects(SulFires));
    run := Then(s, run, Connects(SulReads));
    run := Then(s, run, Connects(EnterBySul));
  }

  lemma GetsNewHandle(s: State, before: seq<Step>) returns (run: seq<Step>)
    requires IsRun(s, before)
    requires var m := After(s, before); m.svc == ConnCall && m.live == {} && m.nextId > 0
    ensures IsRun(s, run)
    ensures var m := After(s, before);
            After(s, run) == m.(live := {m.nextId}, wsi := m.nextId, nextId := m.nextId + 1, svc := Polling)
  {
    hide IsRun, After;
    run := Then(s, before, Connects(GotHandle));
    run := Then(s, run, Connects(StoreWsi));
  }

  /** A connection that is lost comes back: CLOSED, the reconnect timer and do_connect lead to a new one. */
  lemma LostConnectionComesBack(s: State) returns (run: seq<Step>)
    requires Inv(s) && s.svc == Polling && s.wsi != 0 && s.stopMu == Free && !s.stopping && s.ctx
    ensures IsRun(s, run)
    ensures After(s, run) == s.(live := {s.nextId}, wsi := s.nextId, nextId := s.nextId + 1, sul := false)
  {
    run := [];
    assert IsRun(s, run) && After(s, run) == s && s.live == {s.wsi} && !s.sul && s.nextId > 0;
    hide IsRun, After, Inv;
    run := ConnectionEnds(s, run);
    run := EndUnlocks(s, run);
    run := Schedules2(s, run);
    run := FiresAndConnects(s, run);
    run := GetsNewHandle(s, run);
  }

  lemma ReportsError(s: State, before: seq<Step>) returns (run: seq<Step>)
    requires IsRun(s, before)
    requires var m := After(s, before); m.svc == ConnCall && m.wsi == 0 && m.stopMu == Free
    ensures IsRun(s, run)
    ensures var m := After(s, before); After(s, run) == m.(stopMu := Svc, svc := CbTest(Kind(false, 0, true)))
  {
    hide IsRun, After;
    run := Then(s, before, Connects(GoesWrong));
    run := Then(s, run, Ends(ErrorInConnect));
    run := Then(s, run, Ends(LockEnd));
    run := Then(s, run, Ends(ClearWsi));
  }

  lemma ReturnsNullNow(s: State, before: seq<Step>) returns (run: seq<Step>)
    requires IsRun(s, before)
    requires var m := After(s, before); m.svc == ConnFail && m.wsi == 0
    ensures IsRun(s, run)
    ensures After(s, run) == After(s, before).(svc := SchedTest(false))
  {
    hide IsRun, After;
    run := Then(s, before, Connects(ReturnsNull));
    run := Then(s, run, Connects(StoreWsi));
  }

  /** A connect that reports an error and returns NULL schedules twice and leaves the timer armed. */
  lemma FailedConnectIsRetried(s: State) returns (run: seq<Step>)
    requires Inv(s) && s.svc == ConnCall && s.stopMu == Free && !s.stopping
    ensures IsRun(s, run)
    ensures After(s, run) == s.(sul := true, svc := Polling)
  {
    run := [];
    assert IsRun(s, run) && After(s, run) == s && s.wsi == 0;
    hide IsRun, After, Inv;
    run := ReportsError(s, run);
    run := EndUnlocks(s, run);
    run := Schedules2(s, run);
    run := ReturnsNullNow(s, run);
    run := Schedules2(s, run);
  }

  lemma TakesNode(s: State, before: seq<Step>) returns (run: seq<Step>)
    requires IsRun(s, before)
    requires var m := After(s, before); m.svc == Polling && m.wsi != 0 && m.qMu == Free && m.queue != []
    ensures IsRun(s, run)
    ensures var m := After(s, before); After(s, run) == m.(queue := m.queue[1..], svc := WriteSend(m.queue[0]))
  {
    hide IsRun, After;
    run := Then(s, before, Writes(BeginWrite));
    run := Then(s, run, Writes(LockWrite));
    run := Then(s, run, Writes(TakeNode));
    run := Then(s, run, Writes(UnlockWrite));
  }

  /** A WRITEABLE hands over the first message of the queue. */
  lemma WriteHandsOver(s: State) returns (run: seq<Step>)
    requires s.svc == Polling && s.wsi != 0 && s.qMu == Free && s.queue != []
    ensures IsRun(s, run)
    ensures After(s, run) == s.(queue := s.queue[1..], handed := s.handed + [s.queue[0]])
  {
    run := [];
    assert IsRun(s, run) && After(s, run) == s;
    hide IsRun, After;
    run := TakesNode(s, run);
    run := Then(s, run, Writes(HandOver));
  }

  lemma MarksAndSignals(s: State, before: seq<Step>, t: nat) returns (run: seq<Step>)
    requires IsRun(s, before)
    requires var m := After(s, before);
             m.svc.CbTest? && !m.svc.k.destroy && !m.svc.k.inConnect && m.stopping && Blocked(m, t)
    ensures IsRun(s, run)
    ensures var m := After(s, before);
            After(s, run) == m.(stopped := true, stopMu := Free, svc := Polling,
                                apps := m.apps[t := StopWoken(m.apps[t].dl, false)])
  {
    hide IsRun, After;
    run := Then(s, before, Ends(TestEnd));
    run := Then(s, run, Ends(MarkEnd));
    run := Then(s, run, Ends(Signal(Some(t))));
    run := Then(s, run, Ends(UnlockEnd));
  }

  /** The stop that was waiting finds `stopped`, flushes and returns. */
  lemma WokenReturns(s: State, before: seq<Step>, t: nat) returns (run: seq<Step>)
    requires IsRun(s, before)
    requires var m := After(s, before);
             t < |m.apps| && m.apps[t].StopWoken? && !m.apps[t].late && m.stopped && m.stopMu == Free
    ensures IsRun(s, run)
    ensures var m := After(s, before); After(s, run) == m.(apps := m.apps[t := FlushLock(m.apps[t].dl)])
  {
    hide IsRun, After;
    var m := After(s, before);
    run := Then(s, before, Waits(t, TakeBack));
    run := Then(s, run, Waits(t, TestStopped));
    run := Then(s, run, Waits(t, UnlockWait));
    assert After(s, run).apps == m.apps[t := FlushLock(m.apps[t].dl)];
  }

  lemma FlushesAndReturns(s: State, before: seq<Step>, t: nat) returns (run: seq<Step>)
    requires IsRun(s, before)
    requires var m := After(s, before); t < |m.apps| && m.apps[t].FlushLock? && m.qMu == Free
    ensures IsRun(s, run)
    ensures var m := After(s, before);
            After(s, run) == m.(apps := m.apps[t := Outside], flushed := m.flushed + m.queue, queue := [],
                                silent := true)
  {
    hide IsRun, After;
    var m := After(s, before);
    run := Then(s, before, Flushes(t, LockFlush));
    run := Then(s, run, Flushes(t, Flush));
    run := Then(s, run, Flushes(t, UnlockFlush));
    assert After(s, run).apps == m.apps[t := Outside];
  }

  /**
   A stop that waits returns when the connection is closed, without waiting for its deadline: no time passes, the
   connection is gone, `stopped` is set and the queue is flushed.
   */
  lemma CloseEndsStop(s: State, t: nat) returns (run: seq<Step>)
    requires Inv(s) && Blocked(s, t) && s.svc == Polling && s.wsi != 0 && s.stopMu == Free && s.qMu == Free
    ensures IsRun(s, run)
    ensures After(s, run) == s.(live := {}, wsi := 0, stopped := true, silent := true, apps := s.apps[t := Outside],
                                flushed := s.flushed + s.queue, queue := [])
  {
    run := [];
    assert IsRun(s, run) && After(s, run) == s && s.live == {s.wsi};
    assert s.stopping by {
      assert AppOk(s, s.apps[t]);
    }
    hide IsRun, After, Inv;
    run := ConnectionEnds(s, run);
    run := MarksAndSignals(s, run, t);
    run := WokenReturns(s, run, t);
    run := FlushesAndReturns(s, run, t);
    assert After(s, run).apps == s.apps[t := Outside];
  }
}
