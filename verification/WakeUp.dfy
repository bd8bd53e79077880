/**
 Sending in src/ws_client_v2.c as a small-step system: any number of producers in enqueue_msg,
 the service thread in its callbacks, one queue lock, and q_head read outside it in three places.
 Every access to shared memory is a step of its own.
 */
module WakeUp {
  import opened Common

  /** Where a producer is in enqueue_msg (src/ws_client_v2.c:464-505). */
  datatype Producer =
    | Outside
    | Locking(m: Msg)    // before the lock
    | Checking(m: Msg)   // holds the lock, before flow control and allocation
    | Linked             // holds the lock, the message is in the queue
    | Refused            // holds the lock, no message is in the queue
    | Waking             // released the lock, before ctx is read and lws_cancel_service called

  /** Where the service thread is. */
  datatype Service =
    | Polling            // in lws_service
    | ReadHead           // before one of the unlocked reads of q_head (lines 257, 304, 332)
    | Asking             // found q_head set, before lws_callback_on_writable
    | ReadStopping       // in WAIT_CANCELLED, before the look at `stopping`
    | ReadWsi            // in WAIT_CANCELLED, before the look at `wsi`
    | WriteStart         // in WRITEABLE, before the look at `send_ping`
    | WriteLock          // before the queue lock
    | WriteTake          // holds the lock
    | WriteNone          // holds the lock, found the queue empty
    | WriteTaken(m: Msg) // holds the lock, has dequeued m
    | WriteSend(m: Msg)  // released the lock, before lws_write
    | Closing            // has returned -1
    | FlushLock          // out of the service loop, before the lock
    | FlushDo            // holds the lock
    | Done

  datatype Owner = Free | Svc | Prod(t: nat)

  datatype State = State(
    ctx: bool,           // ctx is set, and the service thread is started
    connected: bool,     // state == STATE_CONNECTED
    wsi: bool,           // wsi != NULL
    stopping: bool,
    sendPing: bool,
    queue: seq<Msg>,
    lock: Owner,
    cancel: bool,        // lws owes a WAIT_CANCELLED
    writable: bool,      // lws owes a WRITEABLE
    svc: Service,
    prods: seq<Producer>,
    accepted: seq<Msg>,  // in the order of their enqueueing
    handed: seq<Msg>,    // to lws_write, in that order
    flushed: seq<Msg>)

  /** In enqueue_msg. */
  datatype ProdAct =
    | Begin(m: Msg)
    | Lock
    | Link
    | Refuse             // over the limit or out of memory
    | Unlock
    | Wake

  /** The service thread on the queue. */
  datatype QueueAct = LockToTake | Take | UnlockEmpty | UnlockTaken | HandOver | LockToFlush | Flush

  /** The service thread elsewhere in its callbacks. */
  datatype LookAct = LookAtHead | Ask | LookAtStopping | LookAtWsi | StartWrite

  /** lws and the network, the application, and the beginnings of callbacks. */
  datatype OuterAct =
    | Start              // wsl_start
    | Connect            // do_connect gets a handle
    | ConnectionUp       // CLIENT_ESTABLISHED down to line 254
    | ConnectionGone     // CLIENT_CLOSED or CLIENT_CONNECTION_ERROR
    | WsiDestroyed       // WSI_DESTROY alone, which leaves `state` as it is
    | PingDue            // TIMER that asks for a ping
    | PongOverdue        // TIMER that finds ping_pending and returns -1
    | WriteFails
    | StopFlag           // wsl_stop sets the flag ...
    | StopWake           // ... and calls lws_cancel_service
    | TakeCancel
    | TakeWritable
    | LeaveLoop

  datatype Step =
    | Produces(t: nat, prod: ProdAct)
    | Queues(queue: QueueAct)
    | Looks(look: LookAct)
    | Others(outer: OuterAct)

  predicate ProdEnabled(s: State, t: nat, a: ProdAct) {
    && t < |s.prods|
    && match a
       case Begin(_) => s.prods[t] == Outside
       case Lock => s.prods[t].Locking? && s.lock == Free
       case Link => s.prods[t].Checking?
       case Refuse => s.prods[t].Checking?
       case Unlock => s.prods[t] == Linked || s.prods[t] == Refused
       case Wake => s.prods[t] == Waking
  }

  function ProducerMoves(p: Producer, a: ProdAct): Producer {
    match a
    case Begin(m) => Locking(m)
    case Lock => if p.Locking? then Checking(p.m) else p
    case Link => Linked
    case Refuse => Refused
    case Unlock => if p == Linked then Waking else Outside
    case Wake => Outside
  }

  function ApplyProducer(s: State, t: nat, a: ProdAct): State
    requires ProdEnabled(s, t, a)
  {
    var p := s.prods[t];
    s.(prods := s.prods[t := ProducerMoves(p, a)],
       lock := if a == Lock then Prod(t) else if a == Unlock then Free else s.lock,
       queue := if a == Link then s.queue + [p.m] else s.queue,
       accepted := if a == Link then s.accepted + [p.m] else s.accepted,
       cancel := s.cancel || (a == Wake && s.ctx))
  }

  predicate QueueEnabled(s: State, a: QueueAct) {
    match a
    case LockToTake => s.svc == WriteLock && s.lock == Free
    case Take => s.svc == WriteTake
    case UnlockEmpty => s.svc == WriteNone
    case UnlockTaken => s.svc.WriteTaken?
    case HandOver => s.svc.WriteSend?
    case LockToFlush => s.svc == FlushLock && s.lock == Free
    case Flush => s.svc == FlushDo
  }

  function QueueMoves(s: State, a: QueueAct): Service {
    match a
    case LockToTake => WriteTake
    case Take => if s.queue == [] then WriteNone else WriteTaken(s.queue[0])
    case UnlockEmpty => Polling
    case UnlockTaken => if s.svc.WriteTaken? then WriteSend(s.svc.m) else Polling
    case HandOver => ReadHead
    case LockToFlush => FlushDo
    case Flush => Done
  }

  function ApplyQueue(s: State, a: QueueAct): State
    requires QueueEnabled(s, a)
  {
    s.(svc := QueueMoves(s, a),
       lock := if a == LockToTake || a == LockToFlush then Svc
               else if a == UnlockEmpty || a == UnlockTaken || a == Flush then Free else s.lock,
       queue := if a == Take && s.queue != [] then s.queue[1..] else if a == Flush then [] else s.queue,
       handed := if a == HandOver then s.handed + [s.svc.m] else s.handed,
       flushed := if a == Flush then s.flushed + s.queue else s.flushed)
  }

  predicate LookEnabled(s: State, a: LookAct) {
    match a
    case LookAtHead => s.svc == ReadHead
    case Ask => s.svc == Asking
    case LookAtStopping => s.svc == ReadStopping
    case LookAtWsi => s.svc == ReadWsi
    case StartWrite => s.svc == WriteStart
  }

  function LookMoves(s: State, a: LookAct): Service {
    match a
    case LookAtHead => if s.queue != [] then Asking else Polling
    case Ask => Polling
    case LookAtStopping => if s.stopping then Polling else ReadWsi
    case LookAtWsi => Polling
    case StartWrite => if s.sendPing then ReadHead else WriteLock
  }

  function ApplyLook(s: State, a: LookAct): State
    requires LookEnabled(s, a)
  {
    s.(svc := LookMoves(s, a),
       writable := s.writable || a == Ask || (a == LookAtWsi && s.wsi),
       sendPing := s.sendPing && a != StartWrite)
  }

  predicate OuterEnabled(s: State, a: OuterAct) {
    match a
    case Start => !s.ctx
    case Connect => s.svc == Polling && !s.wsi && s.ctx
    case ConnectionUp => s.svc == Polling && s.wsi && !s.connected
    case ConnectionGone => (s.svc == Polling || s.svc == Closing) && s.wsi
    case WsiDestroyed => (s.svc == Polling || s.svc == Closing) && s.wsi
    case PingDue => s.svc == Polling && s.connected && s.wsi
    case PongOverdue => s.svc == Polling && s.connected && s.wsi
    case WriteFails => s.svc.WriteSend?
    case StopFlag => s.ctx
    case StopWake => s.stopping
    case TakeCancel => s.svc == Polling && s.cancel
    case TakeWritable => s.svc == Polling && s.connected && s.wsi && s.writable
    case LeaveLoop => s.svc == Polling && s.stopping
  }

  function OuterMoves(s: State, a: OuterAct): Service {
    match a
    case ConnectionUp => ReadHead
    case ConnectionGone => Polling
    case WsiDestroyed => Polling
    case PongOverdue => Closing
    case WriteFails => Closing
    case TakeCancel => ReadStopping
    case TakeWritable => WriteStart
    case LeaveLoop => FlushLock
    case _ => s.svc
  }

  function ApplyOuter(s: State, a: OuterAct): State
    requires OuterEnabled(s, a)
  {
    var lost := a == ConnectionGone || a == WsiDestroyed;
    s.(svc := OuterMoves(s, a),
       ctx := s.ctx || a == Start,
       wsi := a == Connect || (s.wsi && !lost),
       connected := a == ConnectionUp || (s.connected && a != Connect && a != ConnectionGone),
       stopping := s.stopping || a == StopFlag,
       sendPing := s.sendPing || a == PingDue,
       cancel := a == StopWake || (s.cancel && a != TakeCancel),
       writable := a == PingDue || (s.writable && !lost && a != ConnectionUp && a != TakeWritable),
       handed := if a == WriteFails then s.handed + [s.svc.m] else s.handed)
  }

  predicate Enabled(s: State, a: Step) {
    match a
    case Produces(t, x) => ProdEnabled(s, t, x)
    case Queues(x) => QueueEnabled(s, x)
    case Looks(x) => LookEnabled(s, x)
    case Others(x) => OuterEnabled(s, x)
  }

  function Apply(s: State, a: Step): State
    requires Enabled(s, a)
  {
    match a
    case Produces(t, x) => ApplyProducer(s, t, x)
    case Queues(x) => ApplyQueue(s, x)
    case Looks(x) => ApplyLook(s, x)
    case Others(x) => ApplyOuter(s, x)
  }

  predicate IsRun(s: State, run: seq<Step>)
    decreases |run|
  {
    run == [] || (Enabled(s, run[0]) && IsRun(Apply(s, run[0]), run[1..]))
  }

  function After(s: State, run: seq<Step>): State
    requires IsRun(s, run)
    decreases |run|
  {
    if run == [] then s else After(Apply(s, run[0]), run[1..])
  }

  predicate Init(s: State) {
    && !s.ctx && !s.connected && !s.wsi && !s.stopping && !s.sendPing && !s.cancel && !s.writable
    && s.queue == [] && s.lock == Free && s.svc == Polling
    && s.accepted == [] && s.handed == [] && s.flushed == []
    && forall t :: 0 <= t < |s.prods| ==> s.prods[t] == Outside
  }

  // ---- The lock ----

  predicate ProdHolds(p: Producer) {
    p.Checking? || p == Linked || p == Refused
  }

  predicate SvcHolds(v: Service) {
    v == WriteTake || v == WriteNone || v.WriteTaken? || v == FlushDo
  }

  /** The lock has exactly the owner that is inside a critical section, so there is at most one. */
  ghost predicate LockInv(s: State) {
    && (SvcHolds(s.svc) <==> s.lock == Svc)
    && (s.lock.Prod? ==> s.lock.t < |s.prods|)
    && (forall t :: 0 <= t < |s.prods| ==> (ProdHolds(s.prods[t]) <==> s.lock == Prod(t)))
  }

  // ---- No message is lost, doubled or overtaken ----

  function InFlight(v: Service): seq<Msg> {
    if v.WriteTaken? || v.WriteSend? then [v.m] else []
  }

  ghost predicate Conserved(s: State) {
    && s.accepted == s.handed + InFlight(s.svc) + s.flushed + s.queue
    && (s.flushed != [] ==> s.svc == Done)
  }

  // ---- No message is stranded ----

  /** The service thread is on its way to look at the queue, or to close. */
  predicate LooksAgain(v: Service) {
    v != Polling && v != FlushLock && v != FlushDo && v != Done && v != WriteNone
  }

  ghost predicate WakeOwed(s: State) {
    exists t :: 0 <= t < |s.prods| && (s.prods[t] == Linked || s.prods[t] == Waking)
  }

  ghost predicate NotStranded(s: State) {
    && (s.wsi || s.connected || s.stopping || s.cancel ==> s.ctx)
    && (s.svc == WriteNone ==> s.queue == [])
    && (s.svc == FlushLock || s.svc == FlushDo || s.svc == Done ==> s.stopping)
    && (s.connected && s.wsi && !s.stopping && s.queue != [] ==>
          s.writable || s.cancel || WakeOwed(s) || LooksAgain(s.svc))
  }

  ghost predicate Inv(s: State) {
    LockInv(s) && Conserved(s) && NotStranded(s)
  }

  /** Where a producer is before and after a step. */
  lemma ProducerPlaces(s: State, t: nat, a: ProdAct)
    requires ProdEnabled(s, t, a)
    ensures (ProdHolds(s.prods[t]) <==> a == Link || a == Refuse || a == Unlock)
    ensures (s.prods[t] == Linked ==> a == Unlock) && (s.prods[t] == Waking ==> a == Wake)
    ensures a == Lock ==> s.lock == Free
    ensures var q := ProducerMoves(s.prods[t], a);
            && (ProdHolds(q) <==> a == Lock || a == Link || a == Refuse)
            && (q == Linked <==> a == Link) && (q == Waking <==> a == Unlock && s.prods[t] == Linked)
  {
  }

  lemma ProducerKeepsLock(s: State, t: nat, a: ProdAct)
    requires LockInv(s) && ProdEnabled(s, t, a)
    ensures LockInv(ApplyProducer(s, t, a))
  {
    ProducerPlaces(s, t, a);
    hide ProducerMoves, ProdHolds, SvcHolds, ProdEnabled;
  }

  lemma ProducerConserves(s: State, t: nat, a: ProdAct)
    requires LockInv(s) && Conserved(s) && ProdEnabled(s, t, a)
    ensures Conserved(ApplyProducer(s, t, a))
  {
    hide ProducerMoves, ProdEnabled, InFlight;
  }

  /** A producer that links a message owes a wake-up until it has called lws_cancel_service. */
  lemma ProducerWakes(s: State, t: nat, a: ProdAct)
    requires LockInv(s) && NotStranded(s) && ProdEnabled(s, t, a)
    ensures NotStranded(ApplyProducer(s, t, a))
  {
    ProducerPlaces(s, t, a);
    assert ProdHolds(s.prods[t]) ==> s.lock == Prod(t);
    var r := ApplyProducer(s, t, a);
    hide ProducerMoves, ProdEnabled, ProdHolds, LooksAgain;
    assert r.prods[t] == Linked || r.prods[t] == Waking ==> WakeOwed(r);
    if WakeOwed(s) && a != Wake {
      var u :| 0 <= u < |s.prods| && (s.prods[u] == Linked || s.prods[u] == Waking);
      assert r.prods[u] == Linked || r.prods[u] == Waking;
    }
  }

  lemma ProducerStep(s: State, t: nat, a: ProdAct)
    requires Inv(s) && ProdEnabled(s, t, a)
    ensures Inv(ApplyProducer(s, t, a))
  {
    ProducerKeepsLock(s, t, a);
    ProducerConserves(s, t, a);
    ProducerWakes(s, t, a);
    hide LockInv, Conserved, NotStranded, ApplyProducer;
  }

  lemma QueueFrame(s: State, a: QueueAct)
    requires QueueEnabled(s, a)
    ensures var r := ApplyQueue(s, a);
            && r == s.(svc := QueueMoves(s, a), lock := r.lock, queue := r.queue, handed := r.handed,
                       flushed := r.flushed)
            && r.lock == (if a == LockToTake || a == LockToFlush then Svc
                          else if a == UnlockEmpty || a == UnlockTaken || a == Flush then Free else s.lock)
            && r.queue == (if a == Take && s.queue != [] then s.queue[1..] else if a == Flush then [] else s.queue)
  {
  }

  /** Where the service thread is before and after. */
  lemma QueuePlaces(s: State, a: QueueAct)
    requires QueueEnabled(s, a)
    ensures SvcHolds(s.svc) <==> a == Take || a == UnlockEmpty || a == UnlockTaken || a == Flush
    ensures SvcHolds(QueueMoves(s, a)) <==> a == LockToTake || a == LockToFlush || a == Take
    ensures a == LockToTake || a == LockToFlush ==> s.lock == Free
    ensures || LooksAgain(QueueMoves(s, a)) || QueueMoves(s, a) == WriteNone
            || a == UnlockEmpty || a == LockToFlush || a == Flush
  {
  }

  lemma QueueKeepsLock(s: State, a: QueueAct)
    requires LockInv(s) && QueueEnabled(s, a)
    ensures LockInv(ApplyQueue(s, a))
  {
    QueueFrame(s, a);
    QueuePlaces(s, a);
    hide ApplyQueue, QueueMoves, SvcHolds, ProdHolds, LooksAgain, QueueEnabled;
  }

  /** Taking, handing over and flushing messages, of which none has been flushed before. */
  lemma MovesMessages(h0: seq<Msg>, m0: seq<Msg>, q0: seq<Msg>, h1: seq<Msg>, m1: seq<Msg>, f1: seq<Msg>, q1: seq<Msg>)
    requires || (h1 == h0 && m0 == [] && f1 == [] && m1 + q1 == q0)
             || (h1 + m1 == h0 + m0 && f1 == [] && q1 == q0)
             || (h1 == h0 && m0 == m1 == [] && f1 == q0 && q1 == [])
    ensures h1 + m1 + f1 + q1 == h0 + m0 + [] + q0
  {
    if h1 == h0 && m0 == [] && f1 == [] && m1 + q1 == q0 {
      assert h1 + m1 + f1 == h1 + m1 && h0 + m0 + [] == h0;
      assert h1 + m1 + q1 == h1 + (m1 + q1);
    } else if h1 + m1 == h0 + m0 && f1 == [] && q1 == q0 {
      assert h1 + m1 + f1 == h1 + m1 && h0 + m0 + [] == h0 + m0;
    } else {
      assert h1 + m1 == h1 && h1 + m1 + f1 + q1 == h1 + m1 + f1 && h0 + m0 + [] == h0;
    }
  }

  lemma QueueConserves(s: State, a: QueueAct)
    requires Conserved(s) && QueueEnabled(s, a)
    ensures Conserved(ApplyQueue(s, a))
  {
    QueueMessages(s, a);
    var r := ApplyQueue(s, a);
    assert s.flushed == [] && r.accepted == s.accepted;
    assert a == Flush || r.flushed == [];
    MovesMessages(s.handed, InFlight(s.svc), s.queue, r.handed, InFlight(r.svc), r.flushed, r.queue);
    hide InFlight, QueueMoves, QueueEnabled;
  }

  /** What is in flight before and after. */
  lemma QueueMessages(s: State, a: QueueAct)
    requires QueueEnabled(s, a)
    ensures var m := InFlight(QueueMoves(s, a));
            && (a == Take ==> InFlight(s.svc) == [] && m == if s.queue == [] then [] else [s.queue[0]])
            && (a == HandOver ==> InFlight(s.svc) == [s.svc.m] && m == [])
            && (a == Flush ==> InFlight(s.svc) == m == [])
            && (a != Take && a != HandOver ==> m == InFlight(s.svc))
    ensures (a == Flush <==> QueueMoves(s, a) == Done) && s.svc != Done
  {
  }

  lemma QueueStrandsNone(s: State, a: QueueAct)
    requires NotStranded(s) && QueueEnabled(s, a)
    ensures NotStranded(ApplyQueue(s, a))
  {
    QueueFrame(s, a);
    QueuePlaces(s, a);
    assert WakeOwed(s) <==> WakeOwed(ApplyQueue(s, a));
    assert a == UnlockEmpty ==> s.svc == WriteNone;
    assert a == LockToFlush ==> s.svc == FlushLock;
    assert a == Flush ==> s.svc == FlushDo;
    assert QueueMoves(s, a) == WriteNone ==> s.queue == [];
    assert QueueMoves(s, a) == FlushDo || QueueMoves(s, a) == Done || QueueMoves(s, a) == FlushLock ==>
             a == LockToFlush || a == Flush;
    hide ApplyQueue, QueueMoves, LooksAgain, SvcHolds, WakeOwed, QueueEnabled;
  }

  lemma QueueStep(s: State, a: QueueAct)
    requires Inv(s) && QueueEnabled(s, a)
    ensures Inv(ApplyQueue(s, a))
  {
    QueueKeepsLock(s, a);
    QueueConserves(s, a);
    QueueStrandsNone(s, a);
    hide LockInv, Conserved, NotStranded, ApplyQueue;
  }

  /** Steps that neither take a lock nor touch a message. */
  lemma QuietStep(s: State, r: State)
    requires LockInv(s) && Conserved(s)
    requires r.prods == s.prods && r.lock == s.lock && r.accepted == s.accepted && r.queue == s.queue
    requires r.flushed == s.flushed
    requires r.handed + InFlight(r.svc) == s.handed + InFlight(s.svc) && !SvcHolds(s.svc) && !SvcHolds(r.svc)
    requires s.svc != Done
    ensures LockInv(r) && Conserved(r) && (WakeOwed(s) <==> WakeOwed(r))
  {
    hide SvcHolds, ProdHolds, InFlight;
  }

  lemma LookStep(s: State, a: LookAct)
    requires Inv(s) && LookEnabled(s, a)
    ensures Inv(ApplyLook(s, a))
  {
    LookPlaces(s, a);
    QuietStep(s, ApplyLook(s, a));
    LookStrandsNone(s, a);
    hide LockInv, Conserved, NotStranded, ApplyLook;
  }

  lemma LookPlaces(s: State, a: LookAct)
    requires LookEnabled(s, a)
    ensures var v := LookMoves(s, a);
            !SvcHolds(s.svc) && !SvcHolds(v) && InFlight(s.svc) == InFlight(v) == [] && s.svc != Done
  {
  }

  lemma LookStrandsNone(s: State, a: LookAct)
    requires NotStranded(s) && LookEnabled(s, a)
    ensures NotStranded(ApplyLook(s, a))
  {
    assert WakeOwed(s) <==> WakeOwed(ApplyLook(s, a));
    hide WakeOwed;
  }

  /** lws, the application and the beginnings of callbacks. */
  lemma OuterPlaces(s: State, a: OuterAct)
    requires OuterEnabled(s, a)
    ensures var v := OuterMoves(s, a);
            && (a == WriteFails ==> InFlight(s.svc) == [s.svc.m] && InFlight(v) == [])
            && (a != WriteFails ==> InFlight(s.svc) == InFlight(v))
            && (v == s.svc || (!SvcHolds(s.svc) && !SvcHolds(v) && s.svc != Done && v != Done))
  {
  }

  lemma OuterKeepsRest(s: State, a: OuterAct)
    requires LockInv(s) && Conserved(s) && OuterEnabled(s, a)
    ensures LockInv(ApplyOuter(s, a)) && Conserved(ApplyOuter(s, a))
  {
    OuterPlaces(s, a);
    hide OuterMoves, SvcHolds, ProdHolds, InFlight, OuterEnabled;
  }

  lemma OuterStrandsNone(s: State, a: OuterAct)
    requires NotStranded(s) && OuterEnabled(s, a)
    ensures NotStranded(ApplyOuter(s, a))
  {
    assert WakeOwed(s) <==> WakeOwed(ApplyOuter(s, a));
    hide WakeOwed;
  }

  lemma OuterStep(s: State, a: OuterAct)
    requires Inv(s) && OuterEnabled(s, a)
    ensures Inv(ApplyOuter(s, a))
  {
    OuterKeepsRest(s, a);
    OuterStrandsNone(s, a);
    hide LockInv, Conserved, NotStranded, ApplyOuter;
  }

  lemma {:induction false} InvAlways(s: State, run: seq<Step>)
    requires Inv(s) && IsRun(s, run)
    ensures Inv(After(s, run))
    decreases |run|
  {
    hide Inv, ApplyProducer, ApplyQueue, ApplyLook, ApplyOuter;
    if run != [] {
      match run[0] {
        case Produces(t, x) => ProducerStep(s, t, x);
        case Queues(x) => QueueStep(s, x);
        case Looks(x) => LookStep(s, x);
        case Others(x) => OuterStep(s, x);
      }
      InvAlways(Apply(s, run[0]), run[1..]);
    }
  }

  lemma InitInv(s: State)
    requires Init(s)
    ensures Inv(s)
  {
    assert s.accepted == s.handed + InFlight(s.svc) + s.flushed + s.queue;
  }

  lemma {:induction false} UpMeansWsi(s: State, run: seq<Step>)
    requires (s.connected ==> s.wsi) && IsRun(s, run) && Others(WsiDestroyed) !in run
    ensures After(s, run).connected ==> After(s, run).wsi
    decreases |run|
  {
    if run != [] {
      assert run[0] in run;
      UpMeansWsi(Apply(s, run[0]), run[1..]);
    }
  }

  /**
   In every reachable state that is connected, not stopping and has a message in the queue, a WRITEABLE is requested,
   or a wake-up is pending, or a producer still owes one, or the service thread has yet to look again; at the least
   in every run in which no connection ends by WSI_DESTROY alone.
   */
  lemma NoMessageStranded(s: State, run: seq<Step>)
    requires Init(s) && IsRun(s, run) && Others(WsiDestroyed) !in run
    ensures var r := After(s, run);
            r.connected && !r.stopping && r.queue != [] ==>
              r.writable || r.cancel || WakeOwed(r) || LooksAgain(r.svc)
  {
    NoneStrandedWithWsi(s, run);
    UpMeansWsi(s, run);
  }

  /** The same in every run, as long as wsi is not NULL. */
  lemma NoneStrandedWithWsi(s: State, run: seq<Step>)
    requires Init(s) && IsRun(s, run)
    ensures var r := After(s, run);
            r.connected && r.wsi && !r.stopping && r.queue != [] ==>
              r.writable || r.cancel || WakeOwed(r) || LooksAgain(r.svc)
  {
    InitInv(s);
    InvAlways(s, run);
  }

  /** lws_cancel_service is called, and a WAIT_CANCELLED pending, only with a context. */
  lemma WakesOnlyWithContext(s: State, run: seq<Step>)
    requires Init(s) && IsRun(s, run)
    ensures After(s, run).cancel ==> After(s, run).ctx
  {
    InitInv(s);
    InvAlways(s, run);
  }

  // ---- A PING is asked for ----

  /** A PING that is due on this connection: a WRITEABLE is requested, or the service thread is at it. */
  ghost predicate PingAsked(s: State) {
    s.connected && s.wsi && s.sendPing ==> s.writable || s.svc == WriteStart
  }

  lemma PingStep(s: State, a: Step)
    requires PingAsked(s) && Enabled(s, a) && a != Others(ConnectionUp)
    ensures PingAsked(Apply(s, a))
  {
  }

  lemma {:induction false} PingAlways(s: State, run: seq<Step>)
    requires PingAsked(s) && IsRun(s, run) && Others(ConnectionUp) !in run
    ensures PingAsked(After(s, run))
    decreases |run|
  {
    hide Apply, Enabled, PingAsked;
    if run != [] {
      assert run[0] in run;
      PingStep(s, run[0]);
      PingAlways(Apply(s, run[0]), run[1..]);
    }
  }

  /**
   A TIMER that asks for a PING also asks for the WRITEABLE that writes it: from then on, until another connection is
   established, one is requested or being served as long as the PING is due. A send_ping left over from an earlier
   connection has no such request.
   */
  lemma PingIsAskedFor(s: State, more: seq<Step>)
    requires Enabled(s, Others(PingDue)) && IsRun(Apply(s, Others(PingDue)), more) && Others(ConnectionUp) !in more
    ensures var r := After(Apply(s, Others(PingDue)), more);
            r.connected && r.wsi && r.sendPing ==> r.writable || r.svc == WriteStart
  {
    PingAlways(Apply(s, Others(PingDue)), more);
  }

  // ---- While wsi is NULL ----

  /** Without a wsi the service thread is outside of the callbacks of a connection. */
  ghost predicate AwayInv(s: State) {
    !s.wsi ==>
      || s.svc == Polling || s.svc == ReadStopping || s.svc == ReadWsi
      || s.svc == FlushLock || s.svc == FlushDo || s.svc == Done
  }

  lemma AwayStep(s: State, a: Step)
    requires AwayInv(s) && Enabled(s, a)
    ensures AwayInv(Apply(s, a))
    ensures !s.wsi && a != Others(Connect) ==> !Apply(s, a).wsi && Apply(s, a).handed == s.handed
  {
  }

  lemma {:induction false} AwayAlways(s: State, run: seq<Step>)
    requires AwayInv(s) && IsRun(s, run)
    ensures AwayInv(After(s, run))
    decreases |run|
  {
    hide Apply, Enabled, AwayInv;
    if run != [] {
      AwayStep(s, run[0]);
      AwayAlways(Apply(s, run[0]), run[1..]);
    }
  }

  lemma {:induction false} AwayHandsNothing(s: State, run: seq<Step>)
    requires AwayInv(s) && !s.wsi && IsRun(s, run) && Others(Connect) !in run
    ensures !After(s, run).wsi && After(s, run).handed == s.handed
    decreases |run|
  {
    hide Apply, Enabled, AwayInv;
    if run != [] {
      assert run[0] in run;
      AwayStep(s, run[0]);
      AwayHandsNothing(Apply(s, run[0]), run[1..]);
    }
  }

  /** From a reachable state without a wsi nothing is handed over before do_connect gets another handle. */
  lemma NothingGoesOutWithoutWsi(s: State, run: seq<Step>, more: seq<Step>)
    requires Init(s) && IsRun(s, run) && !After(s, run).wsi
    requires IsRun(After(s, run), more) && Others(Connect) !in more
    ensures After(After(s, run), more).handed == After(s, run).handed
  {
    AwayAlways(s, run);
    AwayHandsNothing(After(s, run), more);
  }

  lemma {:induction false} Then(s: State, run: seq<Step>, a: Step) returns (longer: seq<Step>)
    requires IsRun(s, run) && Enabled(After(s, run), a)
    ensures IsRun(s, longer) && After(s, longer) == Apply(After(s, run), a)
    decreases |run|
  {
    hide Apply, Enabled;
    if run == [] {
      longer := [a];
      assert longer[0] == a && longer[1..] == [];
      assert IsRun(Apply(s, a), []) && After(Apply(s, a), []) == Apply(s, a);
    } else {
      var rest := Then(Apply(s, run[0]), run[1..], a);
      longer := [run[0]] + rest;
      assert longer[1..] == rest;
    }
  }

  lemma Starts(s: State)
    requires !s.ctx
    ensures Enabled(s, Others(Start)) && Apply(s, Others(Start)) == s.(ctx := true)
  {
  }

  lemma GetsHandle(s: State)
    requires s.svc == Polling && !s.wsi && !s.connected && s.ctx
    ensures Enabled(s, Others(Connect)) && Apply(s, Others(Connect)) == s.(wsi := true)
  {
  }

  lemma ComesUp(s: State)
    requires s.svc == Polling && s.wsi && !s.connected && !s.writable
    ensures Enabled(s, Others(ConnectionUp)) && Apply(s, Others(ConnectionUp)) == s.(connected := true, svc := ReadHead)
  {
  }

  lemma FindsNothing(s: State)
    requires s.svc == ReadHead && s.queue == []
    ensures Enabled(s, Looks(LookAtHead)) && Apply(s, Looks(LookAtHead)) == s.(svc := Polling)
  {
  }

  lemma IsDestroyed(s: State)
    requires s.svc == Polling && s.wsi && !s.writable
    ensures Enabled(s, Others(WsiDestroyed)) && Apply(s, Others(WsiDestroyed)) == s.(wsi := false)
  {
  }

  /** A connection that is established and ends with WSI_DESTROY alone stays STATE_CONNECTED with wsi NULL ... */
  lemma EndsDestroyed(s: State) returns (run: seq<Step>)
    requires Init(s)
    ensures IsRun(s, run) && After(s, run) == s.(ctx := true, connected := true)
  {
    hide Enabled, Apply;
    assert After(s, []) == s;
    hide IsRun, After;
    Starts(s);
    run := Then(s, [], Others(Start));
    GetsHandle(After(s, run));
    run := Then(s, run, Others(Connect));
    ComesUp(After(s, run));
    run := Then(s, run, Others(ConnectionUp));
    FindsNothing(After(s, run));
    run := Then(s, run, Looks(LookAtHead));
    IsDestroyed(After(s, run));
    run := Then(s, run, Others(WsiDestroyed));
  }

  lemma Sends(s: State, before: seq<Step>, t: nat, m: Msg) returns (run: seq<Step>)
    requires IsRun(s, before)
    requires var c := After(s, before); t < |c.prods| && c.prods[t] == Outside && c.lock == Free && c.ctx
    ensures IsRun(s, run)
    ensures var c := After(s, before);
            After(s, run) == c.(queue := c.queue + [m], accepted := c.accepted + [m], cancel := true)
  {
    hide IsRun, After;
    var c := After(s, before);
    run := Then(s, before, Produces(t, Begin(m)));
    run := Then(s, run, Produces(t, Lock));
    run := Then(s, run, Produces(t, Link));
    run := Then(s, run, Produces(t, Unlock));
    run := Then(s, run, Produces(t, Wake));
    assert After(s, run).prods == c.prods;
  }

  lemma LooksInVain(s: State, before: seq<Step>) returns (run: seq<Step>)
    requires IsRun(s, before)
    requires var c := After(s, before); c.svc == Polling && c.cancel && !c.stopping && !c.wsi
    ensures IsRun(s, run) && After(s, run) == After(s, before).(cancel := false)
  {
    hide IsRun, After;
    run := Then(s, before, Others(TakeCancel));
    run := Then(s, run, Looks(LookAtStopping));
    run := Then(s, run, Looks(LookAtWsi));
  }

  lemma StrandsOne(s: State, t: nat, m: Msg) returns (run: seq<Step>)
    requires Init(s) && t < |s.prods|
    ensures IsRun(s, run)
    ensures After(s, run) == s.(ctx := true, connected := true, queue := [m], accepted := [m])
  {
    run := EndsDestroyed(s);
    hide IsRun, After, Enabled, Apply;
    run := Sends(s, run, t, m);
    run := LooksInVain(s, run);
  }

  /** ... so that a message sent then is stranded, and not handed over before do_connect gets another handle. */
  lemma DestroyedConnectionStrands(s: State, t: nat, m: Msg) returns (run: seq<Step>)
    requires Init(s) && t < |s.prods|
    ensures IsRun(s, run)
    ensures var r := After(s, run);
            && r.connected && !r.stopping && r.queue == [m]
            && !r.writable && !r.cancel && !WakeOwed(r) && !LooksAgain(r.svc)
            && forall more :: IsRun(r, more) && Others(Connect) !in more ==> After(r, more).handed == []
  {
    run := StrandsOne(s, t, m);
    hide IsRun, After;
    forall more | IsRun(After(s, run), more) && Others(Connect) !in more
      ensures After(After(s, run), more).handed == []
    {
      NothingGoesOutWithoutWsi(s, run, more);
    }
  }

  /** Messages reach lws_write in the order in which they were accepted, none twice and none left out. */
  lemma FirstInFirstOut(s: State, run: seq<Step>)
    requires Init(s) && IsRun(s, run)
    ensures var r := After(s, run);
            r.accepted == r.handed + InFlight(r.svc) + r.flushed + r.queue
  {
    InitInv(s);
    InvAlways(s, run);
  }

  lemma OneInside(s: State, run: seq<Step>, t: nat, u: nat)
    requires Init(s) && IsRun(s, run)
    ensures var r := After(s, run);
            t < |r.prods| && u < |r.prods| && ProdHolds(r.prods[t]) ==>
              !SvcHolds(r.svc) && (ProdHolds(r.prods[u]) ==> u == t)
  {
    InitInv(s);
    InvAlways(s, run);
  }

  // ---- Left to itself, the service thread drains the queue ----

  predicate Internal(a: Step) {
    match a
    case Produces(_, _) => false
    case Queues(x) => x != LockToFlush && x != Flush
    case Looks(_) => true
    case Others(x) => x == TakeCancel || x == TakeWritable
  }

  predicate AllInternal(run: seq<Step>) {
    run == [] || (Internal(run[0]) && AllInternal(run[1..]))
  }

  function Weight(v: Service): nat {
    match v
    case WriteTaken(_) => 17
    case WriteSend(_) => 16
    case ReadHead => 15
    case Asking => 14
    case ReadStopping => 13
    case ReadWsi => 12
    case WriteStart => 9
    case WriteLock => 8
    case WriteTake => 7
    case WriteNone => 1
    case _ => 0
  }

  /** A bound on the steps that the service thread can still take by itself. */
  function StepsLeft(s: State): nat {
    40 * (|s.queue| + if s.sendPing then 1 else 0) + (if s.cancel then 20 else 0) + (if s.writable then 10 else 0)
    + Weight(s.svc)
  }

  ghost predicate SameAround(s: State, r: State) {
    && r.connected == s.connected && r.wsi == s.wsi && r.stopping == s.stopping && r.prods == s.prods
    && r.accepted == s.accepted && (r.svc == Closing <==> s.svc == Closing) && r.flushed == s.flushed
  }

  lemma LookInternal(s: State, a: LookAct)
    requires LookEnabled(s, a)
    ensures StepsLeft(ApplyLook(s, a)) < StepsLeft(s) && SameAround(s, ApplyLook(s, a))
  {
  }

  lemma TakeInternal(s: State, a: OuterAct)
    requires OuterEnabled(s, a) && (a == TakeCancel || a == TakeWritable)
    ensures StepsLeft(ApplyOuter(s, a)) < StepsLeft(s) && SameAround(s, ApplyOuter(s, a))
  {
  }

  lemma QueueWeights(s: State, a: QueueAct)
    requires QueueEnabled(s, a) && a != LockToFlush && a != Flush
    ensures Weight(QueueMoves(s, a)) < if a == Take && s.queue != [] then 40 else Weight(s.svc)
    ensures QueueMoves(s, a) != Closing && s.svc != Closing
  {
  }

  lemma QueueInternal(s: State, a: QueueAct)
    requires QueueEnabled(s, a) && a != LockToFlush && a != Flush
    ensures StepsLeft(ApplyQueue(s, a)) < StepsLeft(s) && SameAround(s, ApplyQueue(s, a))
  {
    QueueFrame(s, a);
    QueueWeights(s, a);
    assert ApplyQueue(s, a).flushed == s.flushed;
    hide ApplyQueue, QueueEnabled, QueueMoves, Weight;
  }

  lemma InternalStep(s: State, a: Step)
    requires Enabled(s, a) && Internal(a)
    ensures StepsLeft(Apply(s, a)) < StepsLeft(s) && SameAround(s, Apply(s, a))
  {
    hide StepsLeft, SameAround, ApplyQueue, ApplyLook, ApplyOuter;
    match a
    case Queues(x) => QueueInternal(s, x);
    case Looks(x) => LookInternal(s, x);
    case Others(x) => TakeInternal(s, x);
  }

  lemma {:induction false} InternalRun(s: State, run: seq<Step>)
    requires IsRun(s, run) && AllInternal(run)
    ensures |run| <= StepsLeft(s)
    ensures SameAround(s, After(s, run))
    decreases |run|
  {
    if run != [] {
      InternalStep(s, run[0]);
      InternalRun(Apply(s, run[0]), run[1..]);
    }
  }

  ghost predicate Quiet(s: State) {
    forall a :: Internal(a) ==> !Enabled(s, a)
  }

  /** The one step the service thread takes next inside a callback. */
  function NextOf(v: Service): Step {
    match v
    case ReadHead => Looks(LookAtHead)
    case Asking => Looks(Ask)
    case ReadStopping => Looks(LookAtStopping)
    case ReadWsi => Looks(LookAtWsi)
    case WriteStart => Looks(StartWrite)
    case WriteLock => Queues(LockToTake)
    case WriteTake => Queues(Take)
    case WriteNone => Queues(UnlockEmpty)
    case WriteTaken(_) => Queues(UnlockTaken)
    case WriteSend(_) => Queues(HandOver)
    case _ => Others(TakeCancel)
  }

  lemma NextIsEnabled(s: State)
    requires s.svc != Polling && s.svc != Closing && s.svc != FlushLock && s.svc != FlushDo && s.svc != Done
    ensures Internal(NextOf(s.svc)) && ((s.svc == WriteLock && s.lock != Free) || Enabled(s, NextOf(s.svc)))
  {
  }

  lemma QuietIsDrained(s: State)
    requires Inv(s) && Quiet(s) && s.connected && s.wsi && !s.stopping && s.svc != Closing
    requires forall t :: 0 <= t < |s.prods| ==> s.prods[t] == Outside
    ensures s.queue == [] && InFlight(s.svc) == [] && s.flushed == []
  {
    assert s.svc == WriteLock ==> s.lock == Free by {
      forall t | 0 <= t < |s.prods|
        ensures s.lock != Prod(t)
      {
        assert !ProdHolds(s.prods[t]);
      }
    }
    assert s.svc == Polling by {
      if s.svc != Polling {
        NextIsEnabled(s);
      }
    }
    assert Internal(Others(TakeCancel)) && Internal(Others(TakeWritable));
    assert !Enabled(s, Others(TakeCancel)) && !Enabled(s, Others(TakeWritable));
  }

  /**
   From any reachable state with an established connection, no stop and no producer at work, the service thread
   by itself comes to rest after at most StepsLeft steps, and then every accepted message has been handed over.
   */
  lemma ServiceDrains(s: State, run: seq<Step>, more: seq<Step>)
    requires Init(s) && IsRun(s, run)
    requires var r := After(s, run); r.connected && r.wsi && !r.stopping && r.svc != Closing
    requires forall t :: 0 <= t < |After(s, run).prods| ==> After(s, run).prods[t] == Outside
    requires IsRun(After(s, run), more) && AllInternal(more)
    ensures |more| <= StepsLeft(After(s, run))
    ensures Quiet(After(After(s, run), more)) ==> After(After(s, run), more).handed == After(s, run).accepted
  {
    hide LockInv, NotStranded, StepsLeft, Apply, Enabled, IsRun, After, AllInternal, Quiet, InFlight;
    var r := After(s, run);
    InitInv(s);
    InvAlways(s, run);
    InternalRun(r, more);
    InvAlways(r, more);
    var q := After(r, more);
    if Quiet(q) {
      QuietIsDrained(q);
      assert q.handed + [] + [] + [] == q.handed;
    }
  }

  /** The service thread by itself does come to rest. */
  lemma {:induction false} ComesToRest(s: State) returns (more: seq<Step>)
    ensures IsRun(s, more) && AllInternal(more) && Quiet(After(s, more))
    decreases StepsLeft(s)
  {
    if a :| Internal(a) && Enabled(s, a) {
      InternalStep(s, a);
      hide Apply, Enabled, Internal, StepsLeft, SameAround;
      var rest := ComesToRest(Apply(s, a));
      more := [a] + rest;
      assert more[0] == a && more[1..] == rest;
    } else {
      more := [];
    }
  }

  ghost predicate HandsOverAll(r: State, more: seq<Step>) {
    IsRun(r, more) && AllInternal(more) && Quiet(After(r, more)) ==> After(r, more).handed == r.accepted
  }

  /** Internal steps are none of do_connect. */
  lemma {:induction false} InternalConnectsNot(more: seq<Step>)
    requires AllInternal(more)
    ensures Others(Connect) !in more
  {
    if more != [] {
      InternalConnectsNot(more[1..]);
    }
  }

  /**
   When a queued message goes out, exactly: in a reachable state that is connected and not stopping, with no producer
   at work, the service thread by itself hands over all that was accepted if and only if wsi is not NULL.
   */
  lemma DrainsIffWsi(s: State, run: seq<Step>)
    requires Init(s) && IsRun(s, run)
    requires var r := After(s, run); r.connected && !r.stopping && r.svc != Closing && r.queue != []
    requires forall t :: 0 <= t < |After(s, run).prods| ==> After(s, run).prods[t] == Outside
    ensures (forall more :: HandsOverAll(After(s, run), more)) <==> After(s, run).wsi
  {
    var r := After(s, run);
    hide Apply, Enabled, IsRun, After, AllInternal, Quiet, StepsLeft;
    if r.wsi {
      forall more
        ensures HandsOverAll(r, more)
      {
        if IsRun(r, more) && AllInternal(more) {
          ServiceDrains(s, run, more);
        }
      }
    } else {
      var more := ComesToRest(r);
      InternalConnectsNot(more);
      NothingGoesOutWithoutWsi(s, run, more);
      QueuedIsNotHanded(s, run);
      assert !HandsOverAll(r, more);
    }
  }

  lemma QueuedIsNotHanded(s: State, run: seq<Step>)
    requires Init(s) && IsRun(s, run) && After(s, run).queue != []
    ensures After(s, run).handed != After(s, run).accepted
  {
    FirstInFirstOut(s, run);
    var r := After(s, run);
    assert |r.accepted| == |r.handed| + |InFlight(r.svc)| + |r.flushed| + |r.queue|;
  }

  // ---- Left to themselves, all threads come to rest ----

  /** All steps but a new send, what lws and the network bring, and the calls of wsl_start and wsl_stop. */
  predicate Settling(a: Step) {
    match a
    case Produces(_, x) => !x.Begin?
    case Queues(_) => true
    case Looks(_) => true
    case Others(x) => x == TakeCancel || x == TakeWritable || x == LeaveLoop
  }

  predicate AllSettling(run: seq<Step>) {
    run == [] || (Settling(run[0]) && AllSettling(run[1..]))
  }

  function ProdRank(p: Producer): nat {
    match p
    case Outside => 0
    case Locking(_) => 4
    case Checking(_) => 3
    case Linked => 2
    case Refused => 2
    case Waking => 1
  }

  function ProdRanks(ps: seq<Producer>): nat {
    if ps == [] then 0 else ProdRanks(ps[..|ps| - 1]) + ProdRank(ps[|ps| - 1])
  }

  /** How far the service thread is from its end. */
  function EndRank(v: Service): nat {
    if v == Done then 0 else if v == FlushDo then 1 else if v == FlushLock then 2 else 3
  }

  function AllLeft(s: State): nat {
    100 * ProdRanks(s.prods) + StepsLeft(s) + EndRank(s.svc)
  }

  lemma {:induction false} RanksUpdate(ps: seq<Producer>, t: nat, p: Producer)
    requires t < |ps|
    ensures ProdRanks(ps[t := p]) == ProdRanks(ps) - ProdRank(ps[t]) + ProdRank(p)
  {
    var n := |ps| - 1;
    if t == n {
      assert ps[t := p][..n] == ps[..n];
    } else {
      assert ps[t := p][..n] == ps[..n][t := p];
      RanksUpdate(ps[..n], t, p);
    }
  }

  lemma ProducerAdds(s: State, t: nat, a: ProdAct)
    requires ProdEnabled(s, t, a)
    ensures var r := ApplyProducer(s, t, a);
            && r.svc == s.svc && r.sendPing == s.sendPing && r.writable == s.writable
            && |r.queue| <= |s.queue| + 1 && r.prods == s.prods[t := ProducerMoves(s.prods[t], a)]
  {
    hide ProducerMoves;
  }

  lemma ProducerNears(p: Producer, a: ProdAct)
    requires match a
             case Begin(_) => false
             case Lock => p.Locking?
             case Link => p.Checking?
             case Refuse => p.Checking?
             case Unlock => p == Linked || p == Refused
             case Wake => p == Waking
    ensures ProdRank(ProducerMoves(p, a)) < ProdRank(p)
  {
  }

  /** A message that is linked, with its wake-up, costs the service thread less than 100 steps. */
  lemma ProducerSettles(s: State, t: nat, a: ProdAct)
    requires ProdEnabled(s, t, a) && !a.Begin?
    ensures AllLeft(ApplyProducer(s, t, a)) < AllLeft(s)
  {
    ProducerAdds(s, t, a);
    ProducerNears(s.prods[t], a);
    RanksUpdate(s.prods, t, ProducerMoves(s.prods[t], a));
    var r := ApplyProducer(s, t, a);
    hide ApplyProducer, ProducerMoves, ProdRank, ProdRanks, ProdEnabled, Weight, EndRank;
    assert StepsLeft(r) <= StepsLeft(s) + 60;
    hide StepsLeft;
  }

  lemma FlushSettles(s: State, a: QueueAct)
    requires QueueEnabled(s, a) && (a == LockToFlush || a == Flush)
    ensures AllLeft(ApplyQueue(s, a)) < AllLeft(s)
  {
    hide ProdRanks;
  }

  lemma InternalSettles(s: State, a: Step)
    requires Enabled(s, a) && Internal(a)
    ensures AllLeft(Apply(s, a)) < AllLeft(s)
  {
    InternalStep(s, a);
    InternalEnds(s, a);
    hide Apply, Enabled, StepsLeft, ProdRanks, EndRank;
  }

  lemma InternalEnds(s: State, a: Step)
    requires Enabled(s, a) && Internal(a)
    ensures EndRank(Apply(s, a).svc) == EndRank(s.svc)
  {
    match a
    case Queues(x) =>
    case Looks(x) =>
    case Others(x) =>
  }

  lemma SettlingStep(s: State, a: Step)
    requires Enabled(s, a) && Settling(a)
    ensures AllLeft(Apply(s, a)) < AllLeft(s)
  {
    if a.Produces? {
      ProducerSettles(s, a.t, a.prod);
    } else if a == Others(LeaveLoop) {
      hide ProdRanks;
    } else if a == Queues(LockToFlush) || a == Queues(Flush) {
      FlushSettles(s, a.queue);
    } else {
      InternalSettles(s, a);
    }
  }

  lemma {:induction false} SettlingRun(s: State, run: seq<Step>)
    requires IsRun(s, run) && AllSettling(run)
    ensures |run| <= AllLeft(s)
    decreases |run|
  {
    hide Apply, Enabled, AllLeft, Settling;
    if run != [] {
      SettlingStep(s, run[0]);
      SettlingRun(Apply(s, run[0]), run[1..]);
    }
  }

  ghost predicate AtRest(s: State) {
    forall a :: Settling(a) ==> !Enabled(s, a)
  }

  /** What the holder of the lock does next. */
  function HolderNext(s: State): Step {
    match s.lock
    case Free => Others(Connect)
    case Svc =>
      Queues(if s.svc == WriteTake then Take else if s.svc == WriteNone then UnlockEmpty
             else if s.svc == FlushDo then Flush else UnlockTaken)
    case Prod(t) => Produces(t, if t < |s.prods| && s.prods[t].Checking? then Link else Unlock)
  }

  lemma HolderGoesOn(s: State)
    requires LockInv(s) && s.lock != Free
    ensures Settling(HolderNext(s)) && Enabled(s, HolderNext(s))
  {
    if s.lock.Prod? {
      assert ProdHolds(s.prods[s.lock.t]);
    }
  }

  lemma ProducerAtRest(s: State, t: nat)
    requires AtRest(s) && LockInv(s) && s.lock == Free && t < |s.prods|
    ensures s.prods[t] == Outside
  {
    assert !ProdHolds(s.prods[t]);
    assert Settling(Produces(t, Lock)) && Settling(Produces(t, Wake));
    assert !Enabled(s, Produces(t, Lock)) && !Enabled(s, Produces(t, Wake));
  }

  lemma ServiceAtRest(s: State)
    requires AtRest(s) && LockInv(s) && s.lock == Free
    ensures s.svc == Closing || s.svc == Done || (s.svc == Polling && !s.stopping)
    ensures s.svc == Polling ==> !s.cancel && !(s.connected && s.wsi && s.writable)
  {
    assert Settling(Others(LeaveLoop)) && Settling(Others(TakeCancel)) && Settling(Others(TakeWritable));
    assert !Enabled(s, Others(LeaveLoop)) && !Enabled(s, Others(TakeCancel)) && !Enabled(s, Others(TakeWritable));
    assert s.svc != FlushLock && s.svc != FlushDo by {
      assert Settling(Queues(LockToFlush)) && !Enabled(s, Queues(LockToFlush));
    }
    if s.svc != Polling && s.svc != Closing && s.svc != Done {
      NextSettles(s);
    }
  }

  lemma NextSettles(s: State)
    requires s.svc != Polling && s.svc != Closing && s.svc != FlushLock && s.svc != FlushDo && s.svc != Done
    requires s.lock == Free
    ensures Settling(NextOf(s.svc)) && Enabled(s, NextOf(s.svc))
  {
  }

  lemma RestIsDrained(s: State)
    requires Inv(s) && AtRest(s)
    ensures forall t :: 0 <= t < |s.prods| ==> s.prods[t] == Outside
    ensures s.svc == Closing || s.svc == Done || (s.svc == Polling && !s.stopping)
    ensures s.svc == Polling && s.connected && s.wsi ==> s.handed == s.accepted
  {
    assert s.lock == Free by {
      if s.lock != Free {
        HolderGoesOn(s);
      }
    }
    ServiceAtRest(s);
    forall t | 0 <= t < |s.prods|
      ensures s.prods[t] == Outside
    {
      ProducerAtRest(s, t);
    }
    hide AtRest, LockInv;
    if s.svc == Polling && s.connected && s.wsi {
      assert s.queue == [] && s.flushed == [];
      assert s.handed + [] + [] + [] == s.handed;
    }
  }

  /**
   From any reachable state all threads together come to rest after at most AllLeft steps, in any order. Then all sends
   have returned; a service thread that was to stop has flushed and ended, unless it waits for lws to close; and one
   that was not has handed over every accepted message, if there is a connection.
   */
  lemma AllComeToRest(s: State, run: seq<Step>, more: seq<Step>)
    requires Init(s) && IsRun(s, run)
    requires IsRun(After(s, run), more) && AllSettling(more)
    ensures |more| <= AllLeft(After(s, run))
    ensures var q := After(After(s, run), more);
            AtRest(q) ==>
              && (forall t :: 0 <= t < |q.prods| ==> q.prods[t] == Outside)
              && (q.svc == Closing || q.svc == Done || (q.svc == Polling && !q.stopping))
              && (q.svc == Polling && q.connected && q.wsi ==> q.handed == q.accepted)
  {
    hide Apply, Enabled, IsRun, After, AllLeft, AtRest, AllSettling, LockInv, Conserved, NotStranded;
    InitInv(s);
    InvAlways(s, run);
    SettlingRun(After(s, run), more);
    InvAlways(After(s, run), more);
    var q := After(After(s, run), more);
    if AtRest(q) {
      RestIsDrained(q);
    }
  }

  // ---- What is refused, and what is not asked for ----

  lemma GetsRefused(s: State, t: nat, m: Msg) returns (run: seq<Step>)
    requires t < |s.prods| && s.prods[t] == Outside && s.lock == Free
    ensures IsRun(s, run) && After(s, run) == s.(prods := s.prods[t := Refused], lock := Prod(t))
  {
    run := Then(s, [], Produces(t, Begin(m)));
    hide IsRun, After;
    run := Then(s, run, Produces(t, Lock));
    run := Then(s, run, Produces(t, Refuse));
    assert After(s, run).prods == s.prods[t := Refused];
  }

  /** A send that is refused leaves everything as it was. */
  lemma RefusedSendChangesNothing(s: State, t: nat, m: Msg) returns (run: seq<Step>)
    requires t < |s.prods| && s.prods[t] == Outside && s.lock == Free
    ensures IsRun(s, run) && After(s, run) == s
  {
    run := GetsRefused(s, t, m);
    hide IsRun, After;
    run := Then(s, run, Produces(t, Unlock));
    assert After(s, run).prods == s.prods;
  }

  /** A stopping client asks for nothing when it is woken. */
  lemma StoppingAsksNothing(s: State) returns (run: seq<Step>)
    requires s.svc == Polling && s.cancel && s.stopping
    ensures IsRun(s, run) && After(s, run) == s.(cancel := false)
  {
    run := Then(s, [], Others(TakeCancel));
    hide IsRun, After;
    run := Then(s, run, Looks(LookAtStopping));
  }

  // ---- What lws and the application bring about ----

  lemma GoesDown(s: State, before: seq<Step>) returns (run: seq<Step>)
    requires IsRun(s, before)
    requires var c := After(s, before); c.svc == Closing && c.wsi
    ensures IsRun(s, run)
    ensures After(s, run) == After(s, before).(connected := false, wsi := false, writable := false, svc := Polling)
  {
    hide IsRun, After;
    run := Then(s, before, Others(ConnectionGone));
  }

  /** A write that fails costs its message and the connection. */
  lemma FailedWriteCloses(s: State) returns (run: seq<Step>)
    requires AwayInv(s) && s.svc.WriteSend?
    ensures IsRun(s, run)
    ensures After(s, run) == s.(handed := s.handed + [s.svc.m], connected := false, wsi := false, writable := false,
                                svc := Polling)
  {
    run := Then(s, [], Others(WriteFails));
    hide IsRun, After;
    run := GoesDown(s, run);
  }

  /** A TIMER that finds ping_pending closes the connection. */
  lemma PongOverdueCloses(s: State) returns (run: seq<Step>)
    requires s.svc == Polling && s.connected && s.wsi
    ensures IsRun(s, run)
    ensures After(s, run) == s.(connected := false, wsi := false, writable := false)
  {
    run := Then(s, [], Others(PongOverdue));
    hide IsRun, After;
    run := GoesDown(s, run);
  }

  lemma PingGetsDue(s: State)
    requires s.svc == Polling && s.connected && s.wsi
    ensures Enabled(s, Others(PingDue)) && Apply(s, Others(PingDue)) == s.(sendPing := true, writable := true)
  {
  }

  lemma TakesWritable(s: State)
    requires s.svc == Polling && s.connected && s.wsi && s.writable
    ensures Enabled(s, Others(TakeWritable))
    ensures Apply(s, Others(TakeWritable)) == s.(svc := WriteStart, writable := false)
  {
  }

  lemma WritesPing(s: State)
    requires s.svc == WriteStart && s.sendPing
    ensures Enabled(s, Looks(StartWrite)) && Apply(s, Looks(StartWrite)) == s.(svc := ReadHead, sendPing := false)
  {
  }

  /** A TIMER that asks for a PING gets it written by the next WRITEABLE, before any message. */
  lemma PingGoesOut(s: State) returns (run: seq<Step>)
    requires s.svc == Polling && s.connected && s.wsi
    ensures IsRun(s, run)
    ensures After(s, run) == s.(sendPing := false, writable := false, svc := ReadHead)
  {
    assert After(s, []) == s;
    hide IsRun, After, Enabled, Apply;
    PingGetsDue(s);
    run := Then(s, [], Others(PingDue));
    TakesWritable(After(s, run));
    run := Then(s, run, Others(TakeWritable));
    WritesPing(After(s, run));
    run := Then(s, run, Looks(StartWrite));
  }

  lemma StopIsFlagged(s: State)
    requires s.ctx
    ensures Enabled(s, Others(StopFlag)) && Apply(s, Others(StopFlag)) == s.(stopping := true)
  {
  }

  lemma StopWakes(s: State)
    requires s.stopping
    ensures Enabled(s, Others(StopWake)) && Apply(s, Others(StopWake)) == s.(cancel := true)
  {
  }

  /** wsl_stop sets the flag and wakes the service thread, which leaves its loop. */
  lemma StopRouses(s: State) returns (run: seq<Step>)
    requires s.ctx
    ensures IsRun(s, run) && After(s, run) == s.(stopping := true, cancel := true)
    ensures s.svc == Polling ==> Enabled(After(s, run), Others(LeaveLoop))
  {
    assert After(s, []) == s;
    StopIsFlagged(s);
    var q := s.(stopping := true);
    StopWakes(q);
    assert s.svc == Polling ==> Enabled(q.(cancel := true), Others(LeaveLoop));
    hide IsRun, After, Enabled, Apply;
    run := Then(s, [], Others(StopFlag));
    run := Then(s, run, Others(StopWake));
  }
}
