/**
 What every step of module StopProtocol keeps.
 */
module StopInvariants {
  import opened Common
  import opened SendQueue
  import opened StopProtocol

  // ---- Who holds the locks ----

  predicate HoldsStop(p: App) {
    || p == StopTest || p == StopEarly || p == StopSet || p == StopUnlock || p == StopReadWsi || p == StopRouse
    || p.StopLoop? || p.StopWait? || p == StopMark || p.StopUnlock2?
  }

  predicate HoldsQueue(p: App) {
    p.FlushDo? || p == FlushUnlock || p.SendTest? || p.SendLink? || p.SendUnlock?
  }

  predicate SvcHoldsStop(v: Service) {
    v.CbClear? || v.CbTest? || v.CbMark? || v.CbSignal? || v.CbUnlock?
  }

  predicate SvcHoldsQueue(v: Service) {
    v == WriteTake || v.WriteUnlock?
  }

  /** Each lock is held by exactly the thread that is inside a critical section of it. */
  ghost predicate LockInv(s: State) {
    && (SvcHoldsStop(s.svc) <==> s.stopMu == Svc) && (SvcHoldsQueue(s.svc) <==> s.qMu == Svc)
    && (s.stopMu.By? ==> s.stopMu.t < |s.apps|) && (s.qMu.By? ==> s.qMu.t < |s.apps|)
    && (forall t :: 0 <= t < |s.apps| ==> (HoldsStop(s.apps[t]) <==> s.stopMu == By(t)))
    && (forall t :: 0 <= t < |s.apps| ==> (HoldsQueue(s.apps[t]) <==> s.qMu == By(t)))
  }

  // ---- The stop handshake ----

  /** The thread that stops the client has set the flag and has not returned yet. */
  predicate HasSet(p: App) {
    || p == StopUnlock || p == StopCancel || p == StopRelock || p == StopReadWsi || p == StopRouse || p.StopLoop?
    || p.StopWait? || p.StopWaiting? || p.StopWoken? || p == StopMark || p.StopUnlock2? || p.FlushLock? || p.FlushDo?
    || p == FlushUnlock
  }

  predicate IsStopper(p: App) {
    p == StopSet || HasSet(p)
  }

  /** The thread has left the wait, or never waited. */
  predicate DoneWaiting(p: App) {
    p.StopUnlock2? || p.FlushLock? || p.FlushDo?
  }

  ghost predicate AppOk(s: State, p: App) {
    && (p == StopSet ==> !s.stopping && !s.stopped)
    && (HasSet(p) ==> s.stopping)
    && (p.StopWait? ==> !s.stopped)
    && (p.StopWaiting? && s.stopped ==> s.svc.CbSignal?)
    && (p.StopWoken? && p.late ==> s.now >= p.dl)
    && (DoneWaiting(p) ==> s.stopped || s.now >= p.dl)
  }

  ghost predicate StopInv(s: State) {
    && (s.stopped ==> s.stopping)
    && (s.svc.CbMark? ==> s.stopping) && (s.svc.CbSignal? ==> s.stopped)
    && (forall t :: 0 <= t < |s.apps| ==> AppOk(s, s.apps[t]))
    && (forall t, u :: 0 <= t < u < |s.apps| ==> !(IsStopper(s.apps[t]) && IsStopper(s.apps[u])))
  }

  // ---- The messages ----

  function InFlight(v: Service): seq<Msg> {
    if v.WriteUnlock? && v.node.Some? then [v.node.value] else if v.WriteSend? then [v.m] else []
  }

  ghost predicate MsgInv(s: State) {
    && s.accepted == s.handed + InFlight(s.svc) + s.flushed + s.queue
    && Within(s.limits, s.queue)
    && (s.flushed != [] ==> s.silent)
    && (s.silent ==> s.stopping && s.queue == [])
    && (s.silent ==> forall t :: 0 <= t < |s.apps| ==> !s.apps[t].SendLink?)
  }

  // ---- The connection ----

  predicate InConnect(v: Service) {
    || v == ConnCall || v == ConnFail || v.ConnStore?
    || (v.SchedTest? && v.inConnect) || (v.SchedArm? && v.inConnect)
    || (AtEnd(v) && KindOf(v).inConnect)
  }

  predicate AtEnd(v: Service) {
    v.CbLock? || v.CbClear? || v.CbTest? || v.CbMark? || v.CbSignal? || v.CbUnlock?
  }

  function KindOf(v: Service): Kind
    requires AtEnd(v)
  {
    v.k
  }

  /** Past the point where a callback has cleared wsi. */
  predicate Cleared(v: Service) {
    v.CbTest? || v.CbMark? || v.CbSignal? || v.CbUnlock?
  }

  /** About to call do_connect, in it, or in schedule_reconnect. */
  predicate NoWsi(v: Service) {
    v == SulTest || v == SulPassed || v == PendTaken || InConnect(v) || v.SchedTest? || v.SchedArm?
  }

  ghost predicate ConnInv(s: State) {
    var v := s.svc;
    && 0 < s.nextId && s.wsi < s.nextId
    && s.live == (if v.ConnStore? && v.h != 0 then {v.h}
                  else if s.wsi == 0 || (AtEnd(v) && KindOf(v).w == s.wsi) then {}
                  else {s.wsi})
    && (v.ConnStore? ==> v.h < s.nextId)
    && (AtEnd(v) && !KindOf(v).destroy ==> s.wsi == 0 || s.wsi == KindOf(v).w)
    && (Cleared(v) ==> s.wsi == 0 || (KindOf(v).destroy && s.wsi != KindOf(v).w))
    && (v.CbUnlock? && v.retry ==> !KindOf(v).destroy)
    && (NoWsi(v) ==> s.wsi == 0)
    && (s.sul ==> s.wsi == 0 && v != SulTest && v != SulPassed && v != PendTaken && v != ConnCall
                  && !(v.ConnStore? && v.h != 0))
    && (s.pend != Consumed ==> v == Polling && !s.sul && s.wsi == 0 && s.nextId == 1)
  }

  /** How many calls of do_connect can still come without another look at `stopping`. */
  function Outstanding(s: State): nat {
    (if s.svc == SulPassed then 1 else 0) + (if s.pend != Consumed || s.svc == PendTaken then 1 else 0)
  }

  ghost predicate EnterInv(s: State) {
    Outstanding(s) <= 1 && (!s.stopping ==> s.entered == 0)
  }

  ghost predicate Inv(s: State) {
    LockInv(s) && StopInv(s) && MsgInv(s) && ConnInv(s) && EnterInv(s)
  }

  // ---- The threads in wsp_client_stop ----

  lemma StopFrame(s: State, t: nat, a: StopAct)
    requires t < |s.apps| && StopEnabled(s, s.apps[t], a)
    ensures var r := ApplyStop(s, t, a);
            && r.apps == s.apps[t := StopMoves(s, a)] && r.svc == s.svc && r.wsi == s.wsi && r.live == s.live
            && r.nextId == s.nextId && r.pend == s.pend && r.queue == s.queue && r.now == s.now
            && r.stopped == s.stopped
            && r.qMu == s.qMu && r.silent == s.silent && r.accepted == s.accepted && r.handed == s.handed
            && r.flushed == s.flushed && r.limits == s.limits && r.entered == s.entered
            && r.stopping == (s.stopping || a == SetFlag) && r.ctx == s.ctx
            && (r.sul <==> s.sul && !(a == CancelSul && s.ctx))
            && r.stopMu == (if a == LockStop || a == Relock then By(t)
                            else if a == LeaveEarly || a == UnlockFlag then Free else s.stopMu)
  {
  }

  lemma StopKeepsLocks(s: State, t: nat, a: StopAct)
    requires LockInv(s) && t < |s.apps| && StopEnabled(s, s.apps[t], a)
    ensures LockInv(ApplyStop(s, t, a))
  {
    StopFrame(s, t, a);
    hide ApplyStop;
  }

  lemma StopKeepsStop(s: State, t: nat, a: StopAct)
    requires LockInv(s) && StopInv(s) && t < |s.apps| && StopEnabled(s, s.apps[t], a)
    ensures StopInv(ApplyStop(s, t, a))
  {
    StopFrame(s, t, a);
    var p := StopMoves(s, a);
    if IsStopper(p) {
      OnlyStopper(s, t, a);
    }
    assert AppOk(ApplyStop(s, t, a), p) by {
      assert AppOk(s, s.apps[t]);
    }
    hide ApplyStop, StopEnabled, LockInv, StopMoves;
    MoveKeepsStop(s, ApplyStop(s, t, a), t, p);
  }

  /** A thread that becomes or is the one that stops the client is the only one. */
  lemma OnlyStopper(s: State, t: nat, a: StopAct)
    requires LockInv(s) && StopInv(s) && t < |s.apps| && StopEnabled(s, s.apps[t], a) && IsStopper(StopMoves(s, a))
    ensures forall u :: 0 <= u < |s.apps| && u != t ==> !IsStopper(s.apps[u])
  {
    forall u | 0 <= u < |s.apps| && u != t
      ensures !IsStopper(s.apps[u])
    {
      assert AppOk(s, s.apps[u]);
      if a == TestFlags {
        assert HoldsStop(s.apps[t]) && !HoldsStop(s.apps[u]);
      } else {
        assert IsStopper(s.apps[t]);
      }
    }
  }

  /** A thread moves from one place in a call to another. */
  lemma MoveKeepsStop(s: State, r: State, t: nat, p: App)
    requires StopInv(s) && t < |s.apps| && r.apps == s.apps[t := p]
    requires r.svc == s.svc && r.now == s.now && r.stopped == s.stopped && (s.stopping ==> r.stopping) && AppOk(r, p)
    requires IsStopper(p) || r.stopping != s.stopping ==>
               forall u :: 0 <= u < |s.apps| && u != t ==> !IsStopper(s.apps[u])
    ensures StopInv(r)
  {
    forall u | 0 <= u < |r.apps|
      ensures AppOk(r, r.apps[u])
    {
      if u != t {
        assert AppOk(s, s.apps[u]);
      }
    }
    hide AppOk, IsStopper;
  }

  lemma StopKeepsRest(s: State, t: nat, a: StopAct)
    requires Inv(s) && t < |s.apps| && StopEnabled(s, s.apps[t], a)
    ensures var r := ApplyStop(s, t, a); MsgInv(r) && ConnInv(r) && EnterInv(r)
  {
    StopFrame(s, t, a);
    hide ApplyStop;
  }

  lemma WaitFrame(s: State, t: nat, a: WaitAct)
    requires t < |s.apps| && WaitEnabled(s, s.apps[t], a)
    ensures var r := ApplyWait(s, t, a);
            && r == s.(apps := s.apps[t := WaitMoves(s, s.apps[t], a)], stopMu := r.stopMu, stopped := r.stopped)
            && r.stopped == (s.stopped || a == Mark)
            && r.stopMu == (if a == TakeBack then By(t) else if a == Wait || a == UnlockWait then Free else s.stopMu)
  {
  }

  lemma WaitKeepsLocks(s: State, t: nat, a: WaitAct)
    requires LockInv(s) && t < |s.apps| && WaitEnabled(s, s.apps[t], a)
    ensures LockInv(ApplyWait(s, t, a))
  {
    WaitFrame(s, t, a);
    hide ApplyWait;
  }

  lemma WaitKeepsStop(s: State, t: nat, a: WaitAct)
    requires LockInv(s) && StopInv(s) && t < |s.apps| && WaitEnabled(s, s.apps[t], a)
    ensures StopInv(ApplyWait(s, t, a))
  {
    WaitFrame(s, t, a);
    hide ApplyWait;
  }

  lemma WaitKeepsRest(s: State, t: nat, a: WaitAct)
    requires Inv(s) && t < |s.apps| && WaitEnabled(s, s.apps[t], a)
    ensures var r := ApplyWait(s, t, a); MsgInv(r) && ConnInv(r) && EnterInv(r)
  {
    WaitFrame(s, t, a);
    hide ApplyWait;
  }

  function FlushMoves(p: App, a: FlushAct): App {
    match a
    case LockFlush => if p.FlushLock? then FlushDo(p.dl) else p
    case Flush => FlushUnlock
    case UnlockFlush => Outside
  }

  lemma FlushFrame(s: State, t: nat, a: FlushAct)
    requires t < |s.apps| && FlushEnabled(s, s.apps[t], a)
    ensures var r := ApplyFlush(s, t, a);
            && r == s.(apps := s.apps[t := FlushMoves(s.apps[t], a)], qMu := r.qMu,
                       queue := r.queue, flushed := r.flushed, silent := r.silent)
            && r.qMu == (if a == LockFlush then By(t) else if a == UnlockFlush then Free else s.qMu)
            && (if a == Flush then r.queue == [] && r.flushed == s.flushed + s.queue && r.silent
                else r.queue == s.queue && r.flushed == s.flushed && r.silent == s.silent)
  {
  }

  lemma FlushKeepsLocks(s: State, t: nat, a: FlushAct)
    requires LockInv(s) && t < |s.apps| && FlushEnabled(s, s.apps[t], a)
    ensures LockInv(ApplyFlush(s, t, a))
  {
    FlushFrame(s, t, a);
    hide ApplyFlush;
  }

  lemma FlushKeepsStop(s: State, t: nat, a: FlushAct)
    requires StopInv(s) && t < |s.apps| && FlushEnabled(s, s.apps[t], a)
    ensures StopInv(ApplyFlush(s, t, a))
  {
    FlushFrame(s, t, a);
    hide ApplyFlush;
  }

  lemma FlushKeepsMessages(s: State, t: nat, a: FlushAct)
    requires LockInv(s) && StopInv(s) && MsgInv(s) && t < |s.apps| && FlushEnabled(s, s.apps[t], a)
    ensures MsgInv(ApplyFlush(s, t, a))
  {
    FlushFrame(s, t, a);
    if a == Flush {
      assert HasSet(s.apps[t]);
      NobodyLinks(s, t);
      FlushesAll(s, ApplyFlush(s, t, a));
    } else {
      hide ApplyFlush, LockInv, StopInv, Within, InFlight;
    }
  }

  lemma FlushesAll(s: State, r: State)
    requires MsgInv(s) && s.stopping && forall t :: 0 <= t < |r.apps| ==> !r.apps[t].SendLink?
    requires r == s.(apps := r.apps, qMu := r.qMu, queue := [], flushed := s.flushed + s.queue, silent := true)
    ensures MsgInv(r)
  {
    hide InFlight, Within;
    EmptyWithin(r.limits);
    assert r.handed + InFlight(r.svc) + r.flushed + r.queue == s.handed + InFlight(s.svc) + s.flushed + s.queue;
  }

  lemma EmptyWithin(l: Limits)
    ensures Within(l, [])
  {
  }

  /** While thread t is about to flush no other thread is about to link a message. */
  lemma NobodyLinks(s: State, t: nat)
    requires LockInv(s) && t < |s.apps| && s.apps[t].FlushDo?
    ensures forall u :: 0 <= u < |s.apps| ==> !s.apps[u].SendLink?
  {
    assert HoldsQueue(s.apps[t]) && s.qMu == By(t);
    forall u | 0 <= u < |s.apps|
      ensures !s.apps[u].SendLink?
    {
      assert HoldsQueue(s.apps[u]) <==> s.qMu == By(u);
    }
  }

  lemma FlushKeepsConn(s: State, t: nat, a: FlushAct)
    requires ConnInv(s) && EnterInv(s) && t < |s.apps| && FlushEnabled(s, s.apps[t], a)
    ensures ConnInv(ApplyFlush(s, t, a)) && EnterInv(ApplyFlush(s, t, a))
  {
    FlushFrame(s, t, a);
    hide ApplyFlush;
  }

  // ---- The threads in wsp_send ----

  lemma SendFrame(s: State, t: nat, a: SendAct)
    requires t < |s.apps| && SendEnabled(s, s.apps[t], a)
    ensures var r := ApplySend(s, t, a);
            && r == s.(apps := s.apps[t := SendMoves(s, s.apps[t], a)], qMu := r.qMu, queue := r.queue,
                       accepted := r.accepted)
            && r.qMu == (if a == LockSend then By(t) else if a == UnlockSend then Free else s.qMu)
            && (if Taken(s, s.apps[t], a)
                then r.queue == s.queue + [s.apps[t].m] && r.accepted == s.accepted + [s.apps[t].m]
                else r.queue == s.queue && r.accepted == s.accepted)
  {
  }

  lemma SendKeepsLocks(s: State, t: nat, a: SendAct)
    requires LockInv(s) && t < |s.apps| && SendEnabled(s, s.apps[t], a)
    ensures LockInv(ApplySend(s, t, a))
  {
    SendFrame(s, t, a);
    hide ApplySend, Taken;
  }

  lemma SendKeepsStop(s: State, t: nat, a: SendAct)
    requires StopInv(s) && t < |s.apps| && SendEnabled(s, s.apps[t], a)
    ensures StopInv(ApplySend(s, t, a))
  {
    SendFrame(s, t, a);
    hide ApplySend, Taken;
    var p := SendMoves(s, s.apps[t], a);
    assert !IsStopper(p) && AppOk(s, p);
    hide SendEnabled, SendMoves;
    MoveKeepsStop(s, ApplySend(s, t, a), t, p);
  }

  lemma SendKeepsRest(s: State, t: nat, a: SendAct)
    requires Inv(s) && t < |s.apps| && SendEnabled(s, s.apps[t], a)
    ensures var r := ApplySend(s, t, a); MsgInv(r) && ConnInv(r) && EnterInv(r)
  {
    SendFrame(s, t, a);
    hide ApplySend;
  }

  // ---- Steps of the application's threads in general ----

  predicate ByApp(a: Step) {
    a.Stops? || a.Waits? || a.Flushes? || a.Sends?
  }

  ghost function Moves(s: State, a: Step): App
    requires ByApp(a) && Enabled(s, a)
  {
    match a
    case Stops(_, x) => StopMoves(s, x)
    case Waits(t, x) => WaitMoves(s, s.apps[t], x)
    case Flushes(t, x) => FlushMoves(s.apps[t], x)
    case Sends(t, x) => SendMoves(s, s.apps[t], x)
  }

  /** What no step of an application's thread changes, and what it can do to the locks and the flags. */
  lemma AppFrame(s: State, a: Step)
    requires ByApp(a) && Enabled(s, a)
    ensures var r := Apply(s, a);
            && r.apps == s.apps[a.t := Moves(s, a)]
            && r.svc == s.svc && r.wsi == s.wsi && r.live == s.live && r.pend == s.pend && r.entered == s.entered
            && r.now == s.now && (s.stopping ==> r.stopping) && (s.silent ==> r.silent)
            && (r.stopped <==> s.stopped || (a.Waits? && a.wait == Mark))
            && (r.stopMu == s.stopMu || r.stopMu == Free || r.stopMu == By(a.t))
            && (r.qMu == s.qMu || r.qMu == Free || r.qMu == By(a.t))
            && (a.Sends? || r.accepted == s.accepted)
            && (a.Flushes? || a.Sends? ==> r.stopMu == s.stopMu)
            && (r.sul <==> s.sul && !(a.Stops? && a.stop == CancelSul && s.ctx)) && r.ctx == s.ctx
  {
    match a
    case Stops(t, x) =>
      StopFrame(s, t, x);
      hide ApplyStop;
    case Waits(t, x) =>
      WaitFrame(s, t, x);
      hide ApplyWait;
    case Flushes(t, x) =>
      FlushFrame(s, t, x);
      hide ApplyFlush;
    case Sends(t, x) =>
      SendFrame(s, t, x);
      hide ApplySend, Taken;
  }

  // ---- The service thread ----

  /** Not in a callback that takes a lock. */
  predicate NoLocks(v: Service) {
    !AtEnd(v) && !SvcHoldsStop(v) && !SvcHoldsQueue(v) && InFlight(v) == []
  }

  lemma ConnFrame(s: State, a: ConnAct)
    requires ConnEnabled(s, a)
    ensures var r := ApplyConn(s, a);
            r == s.(svc := ConnMoves(s, a), wsi := r.wsi, live := r.live, nextId := r.nextId, sul := r.sul,
                    pend := r.pend, entered := r.entered)
  {
  }

  lemma ConnNoLocks(s: State, a: ConnAct)
    requires ConnEnabled(s, a)
    ensures NoLocks(s.svc) && NoLocks(ConnMoves(s, a))
  {
  }

  lemma SchedFrame(s: State, a: SchedAct)
    requires SchedEnabled(s, a)
    ensures var r := ApplySched(s, a);
            r == s.(svc := r.svc, sul := r.sul) && NoLocks(s.svc) && NoLocks(r.svc)
  {
  }

  /** Steps of the service thread outside of locks leave alone what the threads share under them. */
  lemma NoLocksKeepsShared(s: State, r: State)
    requires LockInv(s) && StopInv(s) && MsgInv(s) && NoLocks(s.svc) && NoLocks(r.svc)
    requires r == s.(svc := r.svc, wsi := r.wsi, live := r.live, nextId := r.nextId, sul := r.sul, pend := r.pend,
                     entered := r.entered)
    ensures LockInv(r) && StopInv(r) && MsgInv(r)
  {
    hide Within, HoldsStop, HoldsQueue, IsStopper, HasSet, DoneWaiting;
  }

  lemma ConnKeepsConn(s: State, a: ConnAct)
    requires ConnInv(s) && EnterInv(s) && ConnEnabled(s, a)
    ensures ConnInv(ApplyConn(s, a)) && EnterInv(ApplyConn(s, a))
  {
  }

  lemma SchedKeepsConn(s: State, a: SchedAct)
    requires ConnInv(s) && EnterInv(s) && SchedEnabled(s, a)
    ensures ConnInv(ApplySched(s, a)) && EnterInv(ApplySched(s, a))
  {
  }

  lemma EnvFrame(s: State, a: EnvAct)
    requires EnvEnabled(s, a)
    ensures var r := ApplyEnv(s, a);
            && r == s.(now := r.now, ctx := r.ctx, pend := r.pend) && r.now >= s.now
            && (r.pend == s.pend || (s.pend == NotAdded && r.pend == Queued))
  {
  }

  lemma EnvKeepsStop(s: State, a: EnvAct)
    requires LockInv(s) && StopInv(s) && EnvEnabled(s, a)
    ensures LockInv(ApplyEnv(s, a)) && StopInv(ApplyEnv(s, a))
  {
    EnvFrame(s, a);
    hide ApplyEnv, HoldsStop, HoldsQueue, HasSet, IsStopper;
  }

  lemma EnvKeepsRest(s: State, a: EnvAct)
    requires MsgInv(s) && ConnInv(s) && EnterInv(s) && EnvEnabled(s, a)
    ensures var r := ApplyEnv(s, a); MsgInv(r) && ConnInv(r) && EnterInv(r)
  {
    EnvFrame(s, a);
    hide ApplyEnv, Within, InFlight;
  }

  /** Where the service thread is in a callback that reports the end of a connection. */
  lemma EndPlaces(s: State, a: EndAct)
    requires EndEnabled(s, a)
    ensures var r := ApplyEnd(s, a);
            && InFlight(r.svc) == InFlight(s.svc) == []
            && !SvcHoldsQueue(r.svc) && !SvcHoldsQueue(s.svc)
            && (SvcHoldsStop(r.svc) <==> a == LockEnd || (SvcHoldsStop(s.svc) && a != UnlockEnd))
  {
    match a
    case LostNow =>
    case ErrorInConnect =>
    case _ =>
  }

  lemma EndFrame(s: State, a: EndAct)
    requires EndEnabled(s, a)
    ensures var r := ApplyEnd(s, a);
            && InFlight(r.svc) == InFlight(s.svc) == []
            && !SvcHoldsQueue(r.svc) && !SvcHoldsQueue(s.svc)
            && (SvcHoldsStop(r.svc) <==> a == LockEnd || (SvcHoldsStop(s.svc) && a != UnlockEnd))
    ensures var r := ApplyEnd(s, a);
            && r == s.(svc := r.svc, stopMu := r.stopMu, stopped := r.stopped, wsi := r.wsi, live := r.live,
                       apps := r.apps)
            && r.stopped == (s.stopped || a == MarkEnd)
            && r.stopMu == (if a == LockEnd then Svc else if a == UnlockEnd then Free else s.stopMu)
            && r.apps == (if a.Signal? then Signalled(s, a.t) else s.apps)
  {
    EndPlaces(s, a);
    hide InFlight, SvcHoldsQueue, SvcHoldsStop;
    match a
    case MarkEnd =>
    case UnlockEnd =>
    case _ =>
  }

  lemma EndKeepsLocks(s: State, a: EndAct)
    requires LockInv(s) && EndEnabled(s, a)
    ensures LockInv(ApplyEnd(s, a))
  {
    EndFrame(s, a);
    hide ApplyEnd;
  }

  lemma SignalKeepsStop(s: State, t: Option<nat>)
    requires StopInv(s) && EndEnabled(s, Signal(t))
    ensures StopInv(ApplyEnd(s, Signal(t)))
  {
    var r := ApplyEnd(s, Signal(t));
    assert r.apps == Signalled(s, t) && r.svc.CbUnlock?;
    forall u | 0 <= u < |r.apps|
      ensures !r.apps[u].StopWaiting?
    {
      if t.None? {
        assert !Blocked(s, u);
      } else if u != t.value {
        assert IsStopper(s.apps[t.value]) && !IsStopper(s.apps[u]);
      }
    }
  }

  lemma EndKeepsStop(s: State, a: EndAct)
    requires LockInv(s) && StopInv(s) && EndEnabled(s, a) && !a.Signal?
    ensures StopInv(ApplyEnd(s, a))
  {
    EndFrame(s, a);
    var r := ApplyEnd(s, a);
    assert r.svc.CbMark? ==> s.stopping;
    assert r.svc.CbSignal? <==> a == MarkEnd;
    assert s.svc.CbSignal? ==> false;
    hide ApplyEnd;
    if a == MarkEnd {
      assert forall t :: 0 <= t < |s.apps| ==> !HoldsStop(s.apps[t]);
    }
  }

  lemma EndKeepsMessages(s: State, a: EndAct)
    requires MsgInv(s) && EndEnabled(s, a)
    ensures MsgInv(ApplyEnd(s, a))
  {
    EndFrame(s, a);
    hide ApplyEnd;
  }

  /** The callback begins: the connection it reports, if any, is not alive any more. */
  lemma BeginKeepsConn(s: State, a: EndAct)
    requires ConnInv(s) && EndEnabled(s, a)
    requires a.LostNow? || a.ErrorInConnect? || a.DestroyNow? || a.DestroyInConnect?
    ensures ConnInv(ApplyEnd(s, a))
  {
  }

  lemma CallbackKeepsConn(s: State, a: EndAct)
    requires ConnInv(s) && EndEnabled(s, a) && (a.LockEnd? || a.ClearWsi? || a.TestEnd?)
    ensures ConnInv(ApplyEnd(s, a))
  {
  }

  lemma SignalKeepsConn(s: State, a: EndAct)
    requires ConnInv(s) && EndEnabled(s, a) && (a.MarkEnd? || a.Signal? || a.UnlockEnd?)
    ensures ConnInv(ApplyEnd(s, a))
  {
    hide Signalled, SignalOk;
  }

  lemma EndKeepsEnter(s: State, a: EndAct)
    requires EnterInv(s) && EndEnabled(s, a)
    ensures EnterInv(ApplyEnd(s, a))
  {
    hide Signalled, SignalOk;
  }

  lemma EndKeepsConn(s: State, a: EndAct)
    requires ConnInv(s) && EnterInv(s) && EndEnabled(s, a)
    ensures ConnInv(ApplyEnd(s, a)) && EnterInv(ApplyEnd(s, a))
  {
    EndKeepsEnter(s, a);
    hide ConnInv, EnterInv, ApplyEnd, EndEnabled;
    if a.LostNow? || a.ErrorInConnect? || a.DestroyNow? || a.DestroyInConnect? {
      BeginKeepsConn(s, a);
    } else if a.LockEnd? || a.ClearWsi? || a.TestEnd? {
      CallbackKeepsConn(s, a);
    } else {
      SignalKeepsConn(s, a);
    }
  }

  lemma WriteFrame(s: State, a: WriteAct)
    requires WriteEnabled(s, a)
    ensures var r := ApplyWrite(s, a);
            && r == s.(svc := WriteMoves(s, a), qMu := r.qMu, queue := r.queue, handed := r.handed)
            && r.qMu == (if a == LockWrite then Svc else if a == UnlockWrite then Free else s.qMu)
  {
  }

  /** Where the service thread is in WRITEABLE. */
  lemma WritePlaces(s: State, a: WriteAct)
    requires WriteEnabled(s, a)
    ensures !AtEnd(s.svc) && !NoWsi(s.svc) && (SvcHoldsQueue(s.svc) <==> a == TakeNode || a == UnlockWrite)
    ensures var v := WriteMoves(s, a);
            !AtEnd(v) && !NoWsi(v) && (SvcHoldsQueue(v) <==> a == LockWrite || a == TakeNode)
  {
  }

  /** What WRITEABLE takes from the queue is in flight until it has been handed over. */
  lemma WriteMovesMessages(s: State, a: WriteAct)
    requires WriteEnabled(s, a)
    ensures var r := ApplyWrite(s, a);
            && (r.queue == s.queue || (s.queue != [] && r.queue == s.queue[1..]))
            && s.handed + InFlight(s.svc) + s.queue == r.handed + InFlight(r.svc) + r.queue
  {
    if a == TakeNode && s.queue != [] {
      assert s.queue == [s.queue[0]] + s.queue[1..];
    }
  }

  lemma WriteKeepsLocks(s: State, a: WriteAct)
    requires LockInv(s) && WriteEnabled(s, a) && (a == LockWrite ==> s.qMu == Free)
    ensures LockInv(ApplyWrite(s, a))
  {
    WriteFrame(s, a);
    WritePlaces(s, a);
    hide ApplyWrite, WriteEnabled, HoldsStop, HoldsQueue, NoWsi, SvcHoldsQueue;
  }

  lemma WriteKeepsMessages(s: State, a: WriteAct)
    requires MsgInv(s) && WriteEnabled(s, a)
    ensures MsgInv(ApplyWrite(s, a))
  {
    WriteFrame(s, a);
    WritePlaces(s, a);
    WriteMovesMessages(s, a);
    var r := ApplyWrite(s, a);
    hide ApplyWrite, WriteEnabled, InFlight, NoWsi, SvcHoldsQueue;
    assert r.handed + InFlight(r.svc) + r.flushed + r.queue == s.handed + InFlight(s.svc) + s.flushed + s.queue by {
      if s.flushed != [] {
        assert s.queue == r.queue == [];
      }
    }
    assert Within(r.limits, r.queue) by {
      if s.queue != [] {
        BytesTail(s.queue);
      }
    }
  }

  lemma WriteKeepsRest(s: State, a: WriteAct)
    requires StopInv(s) && ConnInv(s) && EnterInv(s) && WriteEnabled(s, a)
    ensures var r := ApplyWrite(s, a); StopInv(r) && ConnInv(r) && EnterInv(r)
  {
    WriteFrame(s, a);
    WritePlaces(s, a);
    hide ApplyWrite;
  }

  // ---- All steps together ----

  lemma InvStep(s: State, a: Step)
    requires Inv(s) && Enabled(s, a)
    ensures Inv(Apply(s, a))
  {
    hide LockInv, StopInv, MsgInv, ConnInv, EnterInv;
    match a
    case Stops(t, x) =>
      StopKeepsLocks(s, t, x);
      StopKeepsStop(s, t, x);
      StopKeepsRest(s, t, x);
    case Waits(t, x) =>
      WaitKeepsLocks(s, t, x);
      WaitKeepsStop(s, t, x);
      WaitKeepsRest(s, t, x);
    case Flushes(t, x) =>
      FlushKeepsLocks(s, t, x);
      FlushKeepsStop(s, t, x);
      FlushKeepsMessages(s, t, x);
      FlushKeepsConn(s, t, x);
    case Sends(t, x) =>
      SendKeepsLocks(s, t, x);
      SendKeepsStop(s, t, x);
      SendKeepsRest(s, t, x);
    case Connects(x) =>
      ConnFrame(s, x);
      ConnNoLocks(s, x);
      NoLocksKeepsShared(s, Apply(s, a));
      ConnKeepsConn(s, x);
    case Schedules(x) =>
      SchedFrame(s, x);
      NoLocksKeepsShared(s, Apply(s, a));
      SchedKeepsConn(s, x);
    case Ends(x) =>
      EndKeepsLocks(s, x);
      if x.Signal? {
        SignalKeepsStop(s, x.t);
      } else {
        EndKeepsStop(s, x);
      }
      EndKeepsMessages(s, x);
      EndKeepsConn(s, x);
    case Writes(x) =>
      WriteKeepsLocks(s, x);
      WriteKeepsMessages(s, x);
      WriteKeepsRest(s, x);
    case Env(x) =>
      EnvKeepsStop(s, x);
      EnvKeepsRest(s, x);
  }

  lemma {:induction false} InvAlways(s: State, run: seq<Step>)
    requires Inv(s) && IsRun(s, run)
    ensures Inv(After(s, run))
    decreases |run|
  {
    hide Inv, Apply, Enabled;
    if run != [] {
      InvStep(s, run[0]);
      InvAlways(Apply(s, run[0]), run[1..]);
    }
  }

  lemma InitInv(s: State)
    requires Init(s)
    ensures Inv(s)
  {
  }
}
