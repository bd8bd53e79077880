/**
 That wsp_client_stop and wsp_send come to an end in module StopProtocol: no deadlock over the two locks, and
 a wait that the deadline ends.
 */
module StopProgress {
  import opened Common
  import opened SendQueue
  import opened StopProtocol
  import opened StopInvariants
  import opened StopTheorems

  /** What thread t does next inside a call, if nobody signals it. */
  function NextOf(p: App, t: nat): Step {
    match p
    case Outside => Stops(t, BeginStop)
    case StopLock => Stops(t, LockStop)
    case StopTest => Stops(t, TestFlags)
    case StopEarly => Stops(t, LeaveEarly)
    case StopSet => Stops(t, SetFlag)
    case StopUnlock => Stops(t, UnlockFlag)
    case StopCancel => Stops(t, CancelSul)
    case StopRelock => Stops(t, Relock)
    case StopReadWsi => Waits(t, ReadWsi)
    case StopRouse => Waits(t, RouseService)
    case StopLoop(_) => Waits(t, TestStopped)
    case StopWait(_) => Waits(t, Wait)
    case StopWaiting(_) => Waits(t, TimeOut)
    case StopWoken(_, _) => Waits(t, TakeBack)
    case StopMark => Waits(t, Mark)
    case StopUnlock2(_) => Waits(t, UnlockWait)
    case FlushLock(_) => Flushes(t, LockFlush)
    case FlushDo(_) => Flushes(t, Flush)
    case FlushUnlock => Flushes(t, UnlockFlush)
    case SendLock(_) => Sends(t, LockSend)
    case SendTest(_) => Sends(t, TestStopping)
    case SendLink(_) => Sends(t, Link)
    case SendUnlock(_) => Sends(t, UnlockSend)
    case SendRouse => Sends(t, RouseSend)
  }

  /** A bound on the steps of the thread to the end of its call. */
  function Rank(p: App): nat {
    match p
    case Outside => 0
    case StopLock => 23
    case StopTest => 22
    case StopSet => 21
    case StopUnlock => 20
    case StopCancel => 19
    case StopRelock => 18
    case StopReadWsi => 17
    case StopRouse => 16
    case StopWoken(_, late) => if late then 10 else 15
    case StopLoop(_) => 14
    case StopWait(_) => 13
    case StopWaiting(_) => 11
    case StopMark => 9
    case StopUnlock2(_) => 8
    case FlushLock(_) => 7
    case FlushDo(_) => 6
    case FlushUnlock => 5
    case StopEarly => 1
    case SendLock(_) => 6
    case SendTest(_) => 5
    case SendLink(_) => 4
    case SendUnlock(_) => 3
    case SendRouse => 2
  }

  predicate NeedsStop(p: App) {
    p == StopLock || p == StopRelock || p.StopWoken?
  }

  predicate NeedsQueue(p: App) {
    p.FlushLock? || p.SendLock?
  }

  lemma NextIsEnabled(s: State, t: nat)
    requires t < |s.apps| && s.apps[t] != Outside
    requires NeedsStop(s.apps[t]) ==> s.stopMu == Free
    requires NeedsQueue(s.apps[t]) ==> s.qMu == Free
    requires s.apps[t].StopWaiting? ==> s.now >= s.apps[t].dl
    ensures Enabled(s, NextOf(s.apps[t], t))
  {
  }

  lemma NextByApp(p: App, t: nat)
    ensures ByApp(NextOf(p, t)) && NextOf(p, t).t == t
  {
  }

  lemma StopRanks(s: State, t: nat)
    requires t < |s.apps| && Enabled(s, NextOf(s.apps[t], t)) && NextOf(s.apps[t], t).Stops? && s.apps[t] != Outside
    ensures Rank(StopMoves(s, NextOf(s.apps[t], t).stop)) < Rank(s.apps[t])
  {
  }

  lemma WaitRanks(s: State, t: nat)
    requires t < |s.apps| && Enabled(s, NextOf(s.apps[t], t)) && NextOf(s.apps[t], t).Waits?
    ensures var q := WaitMoves(s, s.apps[t], NextOf(s.apps[t], t).wait);
            Rank(q) + (if q.StopWaiting? then 1 else 0) < Rank(s.apps[t])
  {
  }

  lemma FlushRanks(s: State, t: nat)
    requires t < |s.apps| && Enabled(s, NextOf(s.apps[t], t)) && NextOf(s.apps[t], t).Flushes?
    ensures Rank(FlushMoves(s.apps[t], NextOf(s.apps[t], t).flush)) < Rank(s.apps[t])
  {
  }

  lemma SendRanks(s: State, t: nat)
    requires t < |s.apps| && Enabled(s, NextOf(s.apps[t], t)) && NextOf(s.apps[t], t).Sends?
    ensures Rank(SendMoves(s, s.apps[t], NextOf(s.apps[t], t).send)) < Rank(s.apps[t])
  {
    hide Taken;
  }

  lemma NeverWaits(s: State, a: Step)
    requires ByApp(a) && Enabled(s, a) && !a.Waits?
    ensures !Moves(s, a).StopWaiting?
  {
    hide Taken;
  }

  /**
   A thread inside wsp_client_stop or wsp_send can take a step that brings it nearer to its return, unless it
   waits for a lock, or is blocked before its deadline.
   */
  lemma GoesOn(s: State, t: nat)
    requires t < |s.apps| && s.apps[t] != Outside
    requires NeedsStop(s.apps[t]) ==> s.stopMu == Free
    requires NeedsQueue(s.apps[t]) ==> s.qMu == Free
    requires s.apps[t].StopWaiting? ==> s.now >= s.apps[t].dl
    ensures var a := NextOf(s.apps[t], t);
            ByApp(a) && a.t == t && Enabled(s, a)
            && Rank(Moves(s, a)) + (if Moves(s, a).StopWaiting? then 1 else 0) < Rank(s.apps[t])
  {
    var a := NextOf(s.apps[t], t);
    NextByApp(s.apps[t], t);
    NextIsEnabled(s, t);
    hide NextOf, Enabled, NeedsStop, NeedsQueue, StopMoves, FlushMoves, SendMoves, WaitMoves, Rank;
    match a
    case Stops(_, x) =>
      StopRanks(s, t);
      NeverWaits(s, a);
    case Waits(_, x) =>
      WaitRanks(s, t);
    case Flushes(_, x) =>
      FlushRanks(s, t);
      NeverWaits(s, a);
    case Sends(_, x) =>
      SendRanks(s, t);
      NeverWaits(s, a);
  }

  // ---- Left alone, a call returns ----

  /** A run of thread t alone, but for the clock. */
  predicate Alone(run: seq<Step>, t: nat) {
    forall a <- run :: (a.Env? && a.env.Tick?) || (ByApp(a) && a.t == t)
  }

  /** Nobody else holds a lock. */
  predicate LocksFor(s: State, t: nat) {
    (s.stopMu == Free || s.stopMu == By(t)) && (s.qMu == Free || s.qMu == By(t))
  }

  predicate Early(s: State, p: App) {
    p.StopWaiting? && s.now < p.dl
  }

  /** What is left of the call, the wait for the deadline included. */
  function Left(s: State, p: App): nat {
    Rank(p) + if Early(s, p) then 1 else 0
  }

  function NextAlone(s: State, p: App, t: nat): Step {
    if Early(s, p) then Env(Tick(p.dl)) else NextOf(p, t)
  }

  lemma NeedsAreMet(s: State, t: nat)
    requires LockInv(s) && t < |s.apps| && LocksFor(s, t)
    ensures (NeedsStop(s.apps[t]) ==> s.stopMu == Free) && (NeedsQueue(s.apps[t]) ==> s.qMu == Free)
  {
    assert HoldsStop(s.apps[t]) <==> s.stopMu == By(t);
    assert HoldsQueue(s.apps[t]) <==> s.qMu == By(t);
  }

  lemma MovesAlone(s: State, t: nat) returns (r: State)
    requires LockInv(s) && t < |s.apps| && LocksFor(s, t) && s.apps[t] != Outside && !Early(s, s.apps[t])
    ensures var a := NextOf(s.apps[t], t); Enabled(s, a) && r == Apply(s, a) && ByApp(a) && a.t == t
    ensures LocksFor(r, t) && |r.apps| == |s.apps| && Left(r, r.apps[t]) < Rank(s.apps[t])
  {
    var a := NextOf(s.apps[t], t);
    NeedsAreMet(s, t);
    GoesOn(s, t);
    hide LockInv, NeedsStop, NeedsQueue, NextOf, Enabled, Apply, Moves, Rank;
    AppFrame(s, a);
    r := Apply(s, a);
  }

  lemma StepAlone(s: State, t: nat) returns (r: State)
    requires LockInv(s) && t < |s.apps| && LocksFor(s, t) && s.apps[t] != Outside
    ensures var a := NextAlone(s, s.apps[t], t); Enabled(s, a) && r == Apply(s, a) && Alone([a], t)
    ensures LocksFor(r, t) && |r.apps| == |s.apps| && Left(r, r.apps[t]) < Left(s, s.apps[t])
  {
    var p := s.apps[t];
    if Early(s, p) {
      hide LockInv, Rank, NextOf;
      r := Apply(s, Env(Tick(p.dl)));
    } else {
      r := MovesAlone(s, t);
      hide LockInv, LocksFor, NextOf, Enabled, Apply, Rank;
    }
  }

  /**
   Calls come to an end: from any state that keeps the invariant, a thread inside wsp_client_stop or wsp_send that
   is left alone with free locks returns after at most 23 steps, its own and one of the clock to its deadline.
   */
  lemma {:induction false} CallsComeToAnEnd(s: State, t: nat) returns (run: seq<Step>)
    requires Inv(s) && t < |s.apps| && LocksFor(s, t)
    ensures IsRun(s, run) && Alone(run, t) && |run| <= Left(s, s.apps[t]) <= 23
    ensures var r := After(s, run); t < |r.apps| && r.apps[t] == Outside
    decreases Left(s, s.apps[t])
  {
    hide Apply, Enabled, LockInv, StopInv, MsgInv, ConnInv, EnterInv, LocksFor, NextOf;
    if s.apps[t] == Outside {
      run := [];
    } else {
      var a := NextAlone(s, s.apps[t], t);
      var r := StepAlone(s, t);
      InvStep(s, a);
      var rest := CallsComeToAnEnd(r, t);
      run := [a] + rest;
      assert run[0] == a && run[1..] == rest;
      assert a in [a];
    }
  }

  // ---- What a send comes to ----

  lemma SendsUpToTest(s: State, before: seq<Step>, t: nat, m: Msg) returns (run: seq<Step>)
    requires IsRun(s, before)
    requires var c := After(s, before); t < |c.apps| && c.apps[t] == Outside && c.qMu == Free
    ensures IsRun(s, run)
    ensures var c := After(s, before); After(s, run) == c.(apps := c.apps[t := SendTest(m)], qMu := By(t))
  {
    hide IsRun, After;
    var c := After(s, before);
    run := Then(s, before, Sends(t, BeginSend(m)));
    run := Then(s, run, Sends(t, LockSend));
    assert After(s, run).apps == c.apps[t := SendTest(m)];
  }

  lemma SendRefused(s: State, before: seq<Step>, t: nat) returns (run: seq<Step>)
    requires IsRun(s, before)
    requires var c := After(s, before); t < |c.apps| && c.apps[t].SendTest? && c.stopping
    ensures IsRun(s, run)
    ensures var c := After(s, before); After(s, run) == c.(apps := c.apps[t := Outside], qMu := Free)
  {
    hide IsRun, After;
    var c := After(s, before);
    run := Then(s, before, Sends(t, TestStopping));
    run := Then(s, run, Sends(t, UnlockSend));
    assert After(s, run).apps == c.apps[t := Outside];
  }

  lemma SendLinks(s: State, before: seq<Step>, t: nat) returns (run: seq<Step>)
    requires IsRun(s, before)
    requires var c := After(s, before); t < |c.apps| && c.apps[t].SendTest? && !c.stopping
    ensures IsRun(s, run)
    ensures var c := After(s, before); var m := c.apps[t].m; var ok := Accepts(c.limits, c.queue, m);
            After(s, run) == c.(apps := c.apps[t := SendUnlock(ok)],
                                queue := if ok then c.queue + [m] else c.queue,
                                accepted := if ok then c.accepted + [m] else c.accepted)
  {
    hide IsRun, After, Accepts;
    var c := After(s, before);
    run := Then(s, before, Sends(t, TestStopping));
    run := Then(s, run, Sends(t, Link));
    assert After(s, run).apps == c.apps[t := SendUnlock(Accepts(c.limits, c.queue, c.apps[t].m))];
  }

  lemma SendUnlocks(s: State, before: seq<Step>, t: nat) returns (run: seq<Step>)
    requires IsRun(s, before)
    requires var c := After(s, before); t < |c.apps| && c.apps[t].SendUnlock?
    ensures IsRun(s, run)
    ensures var c := After(s, before); After(s, run) == c.(apps := c.apps[t := Outside], qMu := Free)
  {
    hide IsRun, After;
    var c := After(s, before);
    run := Then(s, before, Sends(t, UnlockSend));
    if c.apps[t].sent {
      run := Then(s, run, Sends(t, RouseSend));
    }
    assert After(s, run).apps == c.apps[t := Outside];
  }

  /**
   What wsp_send comes to when it is not interrupted: from any state with q_lock free the message is queued and accepted
   if and only if the client is not stopping and the limits allow it; in every case the call returns and nothing else
   changes.
   */
  lemma SendAcceptsIff(s: State, t: nat, m: Msg) returns (run: seq<Step>)
    requires t < |s.apps| && s.apps[t] == Outside && s.qMu == Free
    ensures IsRun(s, run)
    ensures var ok := !s.stopping && Accepts(s.limits, s.queue, m);
            After(s, run) == s.(queue := if ok then s.queue + [m] else s.queue,
                                accepted := if ok then s.accepted + [m] else s.accepted)
  {
    run := [];
    assert IsRun(s, run) && After(s, run) == s;
    hide IsRun, After, Accepts;
    run := SendsUpToTest(s, run, t, m);
    if s.stopping {
      run := SendRefused(s, run, t);
    } else {
      run := SendLinks(s, run, t);
      run := SendUnlocks(s, run, t);
    }
    assert After(s, run).apps == s.apps;
  }

  /** What the service thread does next while it holds a lock; u is the thread it signals, if one is blocked. */
  function SvcNext(v: Service, u: Option<nat>): Step {
    match v
    case CbClear(_) => Ends(ClearWsi)
    case CbTest(_) => Ends(TestEnd)
    case CbMark(_) => Ends(MarkEnd)
    case CbSignal(_) => Ends(Signal(u))
    case CbUnlock(_, _) => Ends(UnlockEnd)
    case WriteTake => Writes(TakeNode)
    case WriteUnlock(_) => Writes(UnlockWrite)
    case _ => Env(PublishCtx)
  }

  lemma AppHolderGoesOn(r: State, t: nat)
    requires LockInv(r) && t < |r.apps| && (r.stopMu == By(t) || r.qMu == By(t))
    ensures var p := r.apps[t];
            && Enabled(r, NextOf(p, t)) && !NeedsStop(p) && !NeedsQueue(p) && !p.StopWaiting?
            && !(r.stopMu == By(t) && r.qMu == By(t))
  {
    assert HoldsStop(r.apps[t]) <==> r.stopMu == By(t);
    assert HoldsQueue(r.apps[t]) <==> r.qMu == By(t);
    hide LockInv;
    NextIsEnabled(r, t);
    hide NextOf, Enabled;
  }

  lemma SvcHolderGoesOn(r: State)
    requires LockInv(r) && (r.stopMu == Svc || r.qMu == Svc)
    ensures exists u :: SignalOk(r, u) && Enabled(r, SvcNext(r.svc, u)) && !SvcNext(r.svc, u).Env?
    ensures !(r.stopMu == Svc && r.qMu == Svc)
  {
    var u := SomeBlocked(r);
    assert SvcHoldsStop(r.svc) || SvcHoldsQueue(r.svc);
    hide LockInv, SignalOk;
    assert SignalOk(r, u) && Enabled(r, SvcNext(r.svc, u));
  }

  /**
   No deadlock: in every reachable state the thread that holds a lock can go on without waiting for anything,
   and nobody holds both locks.
   */
  lemma LockHoldersGoOn(s: State, run: seq<Step>, t: nat)
    requires Init(s) && IsRun(s, run)
    ensures var r := After(s, run);
            && (t < |r.apps| && (r.stopMu == By(t) || r.qMu == By(t)) ==>
                  Enabled(r, NextOf(r.apps[t], t)) && !NeedsStop(r.apps[t]) && !NeedsQueue(r.apps[t])
                  && !r.apps[t].StopWaiting? && !(r.stopMu == By(t) && r.qMu == By(t)))
            && (r.stopMu == Svc || r.qMu == Svc ==>
                  (exists u :: SignalOk(r, u) && Enabled(r, SvcNext(r.svc, u)) && !SvcNext(r.svc, u).Env?)
                  && !(r.stopMu == Svc && r.qMu == Svc))
  {
    Reachable(s, run);
    var r := After(s, run);
    hide IsRun, After, NextOf, SvcNext, Enabled, NeedsStop, NeedsQueue, StopInv, MsgInv, ConnInv, EnterInv, LockInv;
    if t < |r.apps| && (r.stopMu == By(t) || r.qMu == By(t)) {
      AppHolderGoesOn(r, t);
    }
    if r.stopMu == Svc || r.qMu == Svc {
      SvcHolderGoesOn(r);
    }
  }

  lemma SomeBlocked(s: State) returns (u: Option<nat>)
    ensures SignalOk(s, u)
  {
    if t: nat :| Blocked(s, t) {
      u := Some(t);
    } else {
      u := None;
    }
  }
}
