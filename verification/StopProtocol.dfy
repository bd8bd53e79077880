/**
 One client of the pool of src/ws_pool.c as a small-step system: any number of threads in wsp_client_stop
 and wsp_send, and the service thread connecting, losing and retrying, with stop_mu, q_lock, the condition
 variable and the reconnect timer. Every access to shared memory is a step of its own; `stopping` is read
 under q_lock, or under no lock, and do_connect writes `wsi` without stop_mu, as the source has it.
 */
module StopProtocol {
  import opened Common
  import opened SendQueue

  const STOP_TIMEOUT_MS := 3000

  /** Where an application thread is; dl is the deadline of its wait. */
  datatype App =
    | Outside
    // wsp_client_stop (src/ws_pool.c:709-774)
    | StopLock                       // before stop_mu
    | StopTest                       // holds stop_mu, before the flags are tested
    | StopEarly                      // holds stop_mu, not the first to stop
    | StopSet                        // holds stop_mu, before stopping = 1
    | StopUnlock                     // holds stop_mu, after it
    | StopCancel                     // before lws_sul_cancel
    | StopRelock                     // before stop_mu is taken again
    | StopReadWsi                    // holds stop_mu, before wsi is read
    | StopRouse                      // holds stop_mu, before lws_cancel_service
    | StopLoop(dl: int)              // holds stop_mu, before the test of the while
    | StopWait(dl: int)              // holds stop_mu, before pthread_cond_timedwait
    | StopWaiting(dl: int)           // blocked
    | StopWoken(dl: int, late: bool) // unblocked, before stop_mu is taken back
    | StopMark                       // holds stop_mu, found wsi NULL
    | StopUnlock2(dl: int)           // holds stop_mu, done waiting
    | FlushLock(dl: int)             // before q_lock
    | FlushDo(dl: int)               // holds q_lock
    | FlushUnlock                    // holds q_lock
    // enqueue (src/ws_pool.c:800-834)
    | SendLock(m: Msg)               // before q_lock
    | SendTest(m: Msg)               // holds q_lock, before stopping is read
    | SendLink(m: Msg)               // holds q_lock, read stopping == 0
    | SendUnlock(sent: bool)         // holds q_lock
    | SendRouse                      // before lws_cancel_service

  /** The callbacks that report the end of connection w; inConnect tells of one delivered by the connect call. */
  datatype Kind = Kind(destroy: bool, w: nat, inConnect: bool)

  /** Where the service thread is. */
  datatype Service =
    | Polling
    | SulTest                        // the timer has fired, before stopping is read (line 223)
    | SulPassed                      // read stopping == 0, before do_connect
    | PendTaken                      // has the client in its copy of pending, before do_connect
    | ConnCall                       // in lws_client_connect_via_info
    | ConnFail                       // in it, and it is going to return NULL
    | ConnStore(h: nat)              // it has returned, before wsi is written (line 211)
    | SchedTest(inConnect: bool)     // in schedule_reconnect, before stopping is read (line 160)
    | SchedArm(inConnect: bool)      // read stopping == 0
    | CbLock(k: Kind)                // CONNECTION_ERROR, CLOSED or WSI_DESTROY, before stop_mu
    | CbClear(k: Kind)               // holds stop_mu, before wsi is cleared
    | CbTest(k: Kind)                // holds stop_mu, before stopping is read
    | CbMark(k: Kind)                // holds stop_mu, before stopped = 1
    | CbSignal(k: Kind)              // holds stop_mu, before pthread_cond_signal
    | CbUnlock(k: Kind, retry: bool) // holds stop_mu
    | WriteLock                      // WRITEABLE, before q_lock
    | WriteTake                      // holds q_lock
    | WriteUnlock(node: Option<Msg>) // holds q_lock
    | WriteSend(m: Msg)              // before lws_write

  datatype Owner = Free | Svc | By(t: nat)
  datatype Pend = NotAdded | Queued | Consumed

  datatype State = State(
    limits: Limits,
    ctx: bool,             // pool->ctx is set
    stopping: bool,
    stopped: bool,
    stopMu: Owner,
    qMu: Owner,
    wsi: nat,              // 0 is NULL
    live: set<nat>,        // the connections that lws has and has not reported the end of
    nextId: nat,
    sul: bool,             // the reconnect timer is armed
    pend: Pend,
    queue: seq<Msg>,
    svc: Service,
    apps: seq<App>,
    now: int,
    entered: nat,          // calls of do_connect since stopping was set
    silent: bool,          // the stopping thread has flushed the queue
    accepted: seq<Msg>,
    handed: seq<Msg>,
    flushed: seq<Msg>)

  datatype StopAct =
    | BeginStop | LockStop | TestFlags | LeaveEarly | SetFlag | UnlockFlag | CancelSul | Relock
  datatype WaitAct =
    | ReadWsi | RouseService | TestStopped | Wait | Spurious | TimeOut | TakeBack | Mark | UnlockWait
  datatype FlushAct = LockFlush | Flush | UnlockFlush
  datatype SendAct = BeginSend(m: Msg) | LockSend | TestStopping | Link | UnlockSend | RouseSend
  datatype ConnAct =
    | SulFires | SulReads | EnterBySul | TakePending | EnterByPend
    | GotHandle | GoesWrong | ReturnsNull | StoreWsi
  datatype SchedAct = SchedReads | HookRefuses | ArmSul
  datatype EndAct =
    | LostNow | ErrorInConnect | DestroyNow(w: nat) | DestroyInConnect(w: nat)
    | LockEnd | ClearWsi | TestEnd | MarkEnd | Signal(t: Option<nat>) | UnlockEnd
  datatype WriteAct = BeginWrite | LockWrite | TakeNode | UnlockWrite | HandOver
  datatype EnvAct = Tick(to: int) | PublishCtx | AddToPool

  datatype Step =
    | Stops(t: nat, stop: StopAct)
    | Waits(t: nat, wait: WaitAct)
    | Flushes(t: nat, flush: FlushAct)
    | Sends(t: nat, send: SendAct)
    | Connects(conn: ConnAct)
    | Schedules(sched: SchedAct)
    | Ends(end: EndAct)
    | Writes(write: WriteAct)
    | Env(env: EnvAct)

  // ---- wsp_client_stop ----

  predicate StopEnabled(s: State, p: App, a: StopAct) {
    match a
    case BeginStop => p == Outside
    case LockStop => p == StopLock && s.stopMu == Free
    case TestFlags => p == StopTest
    case LeaveEarly => p == StopEarly
    case SetFlag => p == StopSet
    case UnlockFlag => p == StopUnlock
    case CancelSul => p == StopCancel
    case Relock => p == StopRelock && s.stopMu == Free
  }

  function StopMoves(s: State, a: StopAct): App {
    match a
    case BeginStop => StopLock
    case LockStop => StopTest
    case TestFlags => if s.stopping || s.stopped then StopEarly else StopSet
    case LeaveEarly => Outside
    case SetFlag => StopUnlock
    case UnlockFlag => StopCancel
    case CancelSul => StopRelock
    case Relock => StopReadWsi
  }

  function ApplyStop(s: State, t: nat, a: StopAct): State
    requires t < |s.apps|
  {
    s.(apps := s.apps[t := StopMoves(s, a)],
       stopMu := if a == LockStop || a == Relock then By(t)
                 else if a == LeaveEarly || a == UnlockFlag then Free else s.stopMu,
       stopping := s.stopping || a == SetFlag,
       sul := s.sul && !(a == CancelSul && s.ctx))
  }

  predicate WaitEnabled(s: State, p: App, a: WaitAct) {
    match a
    case ReadWsi => p == StopReadWsi
    case RouseService => p == StopRouse
    case TestStopped => p.StopLoop?
    case Wait => p.StopWait?
    case Spurious => p.StopWaiting?
    case TimeOut => p.StopWaiting? && s.now >= p.dl
    case TakeBack => p.StopWoken? && s.stopMu == Free
    case Mark => p == StopMark
    case UnlockWait => p.StopUnlock2?
  }

  function WaitMoves(s: State, p: App, a: WaitAct): App
    requires WaitEnabled(s, p, a)
  {
    match a
    case ReadWsi => if s.wsi != 0 && s.ctx then StopRouse else StopMark
    case RouseService => StopLoop(s.now + STOP_TIMEOUT_MS)
    case TestStopped => if s.stopped then StopUnlock2(p.dl) else StopWait(p.dl)
    case Wait => StopWaiting(p.dl)
    case Spurious => StopWoken(p.dl, false)
    case TimeOut => StopWoken(p.dl, true)
    case TakeBack => if p.late then StopUnlock2(p.dl) else StopLoop(p.dl)
    case Mark => StopUnlock2(s.now)
    case UnlockWait => FlushLock(p.dl)
  }

  function ApplyWait(s: State, t: nat, a: WaitAct): State
    requires t < |s.apps| && WaitEnabled(s, s.apps[t], a)
  {
    s.(apps := s.apps[t := WaitMoves(s, s.apps[t], a)],
       stopMu := if a == TakeBack then By(t) else if a == Wait || a == UnlockWait then Free else s.stopMu,
       stopped := s.stopped || a == Mark)
  }

  predicate FlushEnabled(s: State, p: App, a: FlushAct) {
    match a
    case LockFlush => p.FlushLock? && s.qMu == Free
    case Flush => p.FlushDo?
    case UnlockFlush => p == FlushUnlock
  }

  function ApplyFlush(s: State, t: nat, a: FlushAct): State
    requires t < |s.apps| && FlushEnabled(s, s.apps[t], a)
  {
    match a
    case LockFlush => s.(apps := s.apps[t := FlushDo(s.apps[t].dl)], qMu := By(t))
    case Flush => s.(apps := s.apps[t := FlushUnlock], flushed := s.flushed + s.queue, queue := [], silent := true)
    case UnlockFlush => s.(apps := s.apps[t := Outside], qMu := Free)
  }

  // ---- wsp_send; the allocation comes first and is over when SendLock is reached ----

  predicate SendEnabled(s: State, p: App, a: SendAct) {
    match a
    case BeginSend(_) => p == Outside
    case LockSend => p.SendLock? && s.qMu == Free
    case TestStopping => p.SendTest?
    case Link => p.SendLink?
    case UnlockSend => p.SendUnlock?
    case RouseSend => p == SendRouse
  }

  ghost predicate Taken(s: State, p: App, a: SendAct) {
    a == Link && p.SendLink? && Accepts(s.limits, s.queue, p.m)
  }

  ghost function SendMoves(s: State, p: App, a: SendAct): App
    requires SendEnabled(s, p, a)
  {
    match a
    case BeginSend(m) => SendLock(m)
    case LockSend => SendTest(p.m)
    case TestStopping => if s.stopping then SendUnlock(false) else SendLink(p.m)
    case Link => SendUnlock(Taken(s, p, a))
    case UnlockSend => if p.sent then SendRouse else Outside
    case RouseSend => Outside
  }

  ghost function ApplySend(s: State, t: nat, a: SendAct): State
    requires t < |s.apps| && SendEnabled(s, s.apps[t], a)
  {
    var p := s.apps[t];
    s.(apps := s.apps[t := SendMoves(s, p, a)],
       qMu := if a == LockSend then By(t) else if a == UnlockSend then Free else s.qMu,
       queue := if Taken(s, p, a) then s.queue + [p.m] else s.queue,
       accepted := if Taken(s, p, a) then s.accepted + [p.m] else s.accepted)
  }

  // ---- The service thread ----

  predicate ConnEnabled(s: State, a: ConnAct) {
    match a
    case SulFires => s.svc == Polling && s.sul && s.ctx
    case SulReads => s.svc == SulTest
    case EnterBySul => s.svc == SulPassed
    case TakePending => s.svc == Polling && s.pend == Queued && s.ctx
    case EnterByPend => s.svc == PendTaken
    case GotHandle => s.svc == ConnCall
    case GoesWrong => s.svc == ConnCall
    case ReturnsNull => s.svc == ConnFail
    case StoreWsi => s.svc.ConnStore?
  }

  function ConnMoves(s: State, a: ConnAct): Service {
    match a
    case SulFires => SulTest
    case SulReads => if s.stopping then Polling else SulPassed
    case EnterBySul => ConnCall
    case TakePending => PendTaken
    case EnterByPend => ConnCall
    case GotHandle => ConnStore(s.nextId)
    case GoesWrong => ConnFail
    case ReturnsNull => ConnStore(0)
    case StoreWsi => if s.svc == ConnStore(0) then SchedTest(false) else Polling
  }

  function ApplyConn(s: State, a: ConnAct): State
    requires ConnEnabled(s, a)
  {
    s.(svc := ConnMoves(s, a),
       sul := s.sul && a != SulFires,
       pend := if a == TakePending then Consumed else s.pend,
       entered := if (a == EnterBySul || a == EnterByPend) && s.stopping then s.entered + 1 else s.entered,
       live := if a == GotHandle then s.live + {s.nextId} else s.live,
       nextId := if a == GotHandle then s.nextId + 1 else s.nextId,
       wsi := if a == StoreWsi then s.svc.h else s.wsi)
  }

  predicate SchedEnabled(s: State, a: SchedAct) {
    match a
    case SchedReads => s.svc.SchedTest?
    case HookRefuses => s.svc.SchedArm?
    case ArmSul => s.svc.SchedArm?
  }

  /** Where schedule_reconnect returns to. */
  function Back(inConnect: bool): Service {
    if inConnect then ConnFail else Polling
  }

  function ApplySched(s: State, a: SchedAct): State
    requires SchedEnabled(s, a)
  {
    match a
    case SchedReads => s.(svc := if s.stopping then Back(s.svc.inConnect) else SchedArm(s.svc.inConnect))
    case HookRefuses => s.(svc := Back(s.svc.inConnect))
    case ArmSul => s.(sul := true, svc := Back(s.svc.inConnect))
  }

  predicate Blocked(s: State, t: nat) {
    t < |s.apps| && s.apps[t].StopWaiting?
  }

  /** pthread_cond_signal unblocks one of the waiting threads, if there is any. */
  ghost predicate SignalOk(s: State, t: Option<nat>) {
    match t
    case Some(u) => Blocked(s, u)
    case None => forall u :: 0 <= u < |s.apps| ==> !Blocked(s, u)
  }

  ghost predicate EndEnabled(s: State, a: EndAct) {
    match a
    case LostNow => s.svc == Polling && s.wsi != 0
    case ErrorInConnect => s.svc == ConnFail
    case DestroyNow(w) => s.svc == Polling && 0 < w < s.nextId
    case DestroyInConnect(w) => s.svc == ConnFail && 0 < w < s.nextId
    case LockEnd => s.svc.CbLock? && s.stopMu == Free
    case ClearWsi => s.svc.CbClear?
    case TestEnd => s.svc.CbTest?
    case MarkEnd => s.svc.CbMark?
    case Signal(t) => s.svc.CbSignal? && SignalOk(s, t)
    case UnlockEnd => s.svc.CbUnlock?
  }

  function Signalled(s: State, t: Option<nat>): seq<App> {
    if t.Some? && Blocked(s, t.value) then s.apps[t.value := StopWoken(s.apps[t.value].dl, false)] else s.apps
  }

  ghost function ApplyEnd(s: State, a: EndAct): State
    requires EndEnabled(s, a)
  {
    match a
    case LostNow => s.(live := s.live - {s.wsi}, svc := CbLock(Kind(false, s.wsi, false)))
    case ErrorInConnect => s.(svc := CbLock(Kind(false, 0, true)))
    case DestroyNow(w) => s.(live := s.live - {w}, svc := CbLock(Kind(true, w, false)))
    case DestroyInConnect(w) => s.(live := s.live - {w}, svc := CbLock(Kind(true, w, true)))
    case LockEnd => s.(stopMu := Svc, svc := CbClear(s.svc.k))
    case ClearWsi => s.(wsi := if !s.svc.k.destroy || s.wsi == s.svc.k.w then 0 else s.wsi, svc := CbTest(s.svc.k))
    case TestEnd =>
      var k := s.svc.k;
      s.(svc := if s.stopping && !(k.destroy && s.stopped) then CbMark(k) else CbUnlock(k, !k.destroy))
    case MarkEnd => s.(stopped := true, svc := CbSignal(s.svc.k))
    case Signal(t) => s.(apps := Signalled(s, t), svc := CbUnlock(s.svc.k, false))
    case UnlockEnd =>
      var k := s.svc.k;
      s.(stopMu := Free, svc := if s.svc.retry then SchedTest(k.inConnect) else Back(k.inConnect))
  }

  predicate WriteEnabled(s: State, a: WriteAct) {
    match a
    case BeginWrite => s.svc == Polling && s.wsi != 0
    case LockWrite => s.svc == WriteLock && s.qMu == Free
    case TakeNode => s.svc == WriteTake
    case UnlockWrite => s.svc.WriteUnlock?
    case HandOver => s.svc.WriteSend?
  }

  function WriteMoves(s: State, a: WriteAct): Service {
    match a
    case BeginWrite => WriteLock
    case LockWrite => WriteTake
    case TakeNode => WriteUnlock(if s.queue == [] then None else Some(s.queue[0]))
    case UnlockWrite => if s.svc.WriteUnlock? && s.svc.node.Some? then WriteSend(s.svc.node.value) else Polling
    case HandOver => Polling
  }

  function ApplyWrite(s: State, a: WriteAct): State
    requires WriteEnabled(s, a)
  {
    s.(svc := WriteMoves(s, a),
       qMu := if a == LockWrite then Svc else if a == UnlockWrite then Free else s.qMu,
       queue := if a == TakeNode && s.queue != [] then s.queue[1..] else s.queue,
       handed := if a == HandOver then s.handed + [s.svc.m] else s.handed)
  }

  predicate EnvEnabled(s: State, a: EnvAct) {
    match a
    case Tick(to) => to >= s.now
    case PublishCtx => true
    case AddToPool => s.pend == NotAdded
  }

  function ApplyEnv(s: State, a: EnvAct): State {
    match a
    case Tick(to) => s.(now := to)
    case PublishCtx => s.(ctx := true)
    case AddToPool => s.(pend := Queued)
  }

  // ---- Runs ----

  ghost predicate Enabled(s: State, a: Step) {
    match a
    case Stops(t, x) => t < |s.apps| && StopEnabled(s, s.apps[t], x)
    case Waits(t, x) => t < |s.apps| && WaitEnabled(s, s.apps[t], x)
    case Flushes(t, x) => t < |s.apps| && FlushEnabled(s, s.apps[t], x)
    case Sends(t, x) => t < |s.apps| && SendEnabled(s, s.apps[t], x)
    case Connects(x) => ConnEnabled(s, x)
    case Schedules(x) => SchedEnabled(s, x)
    case Ends(x) => EndEnabled(s, x)
    case Writes(x) => WriteEnabled(s, x)
    case Env(x) => EnvEnabled(s, x)
  }

  ghost function Apply(s: State, a: Step): State
    requires Enabled(s, a)
  {
    match a
    case Stops(t, x) => ApplyStop(s, t, x)
    case Waits(t, x) => ApplyWait(s, t, x)
    case Flushes(t, x) => ApplyFlush(s, t, x)
    case Sends(t, x) => ApplySend(s, t, x)
    case Connects(x) => ApplyConn(s, x)
    case Schedules(x) => ApplySched(s, x)
    case Ends(x) => ApplyEnd(s, x)
    case Writes(x) => ApplyWrite(s, x)
    case Env(x) => ApplyEnv(s, x)
  }

  ghost predicate IsRun(s: State, run: seq<Step>)
    decreases |run|
  {
    run == [] || (Enabled(s, run[0]) && IsRun(Apply(s, run[0]), run[1..]))
  }

  ghost function After(s: State, run: seq<Step>): State
    requires IsRun(s, run)
    decreases |run|
  {
    if run == [] then s else After(Apply(s, run[0]), run[1..])
  }

  ghost predicate Init(s: State) {
    && !s.ctx && !s.stopping && !s.stopped && s.stopMu == Free && s.qMu == Free
    && s.wsi == 0 && s.live == {} && s.nextId == 1 && !s.sul && s.pend == NotAdded
    && s.queue == [] && s.svc == Polling && s.entered == 0 && !s.silent
    && s.accepted == [] && s.handed == [] && s.flushed == []
    && forall t :: 0 <= t < |s.apps| ==> s.apps[t] == Outside
  }
}
