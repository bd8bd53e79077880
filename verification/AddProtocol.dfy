/**
 Adding clients to the pool of src/ws_pool.c as a small-step system: any number of threads in
 wsp_pool_add, one in wsp_pool_start, and the service thread consuming `pending`.
 `ctx` is published without pool_lock and `pool` of a client is tested without it.
 */
module AddProtocol {
  import opened Common

  const MAX_CLIENTS := 256

  /** Where a thread is in wsp_pool_add (src/ws_pool.c:676-703). */
  datatype Adder =
    | Outside
    | Locking(c: nat)        // found c->pool NULL, before the lock
    | Checking(c: nat)       // holds the lock, before the room is checked
    | Owning(c: nat)         // holds the lock, before c->pool is set
    | Storing(c: nat)        // holds the lock, before c goes into the two arrays
    | Stored                 // holds the lock, before ctx is read
    | Leaving(ready: bool)   // holds the lock, ctx was read
    | Full                   // holds the lock, there is no room
    | Waking                 // released the lock, before lws_cancel_service

  /** Where the thread in wsp_pool_start is (src/ws_pool.c:520-538). */
  datatype Starter =
    | NotStarted
    | Published              // ctx is set, before pthread_create
    | Threaded               // the service thread runs, before the lock
    | Looking                // holds the lock, before n_pending is read
    | Looked(has: bool)      // holds the lock
    | Rousing                // released the lock, before lws_cancel_service
    | Started

  /** Where the service thread is (src/ws_pool.c:322-350). */
  datatype Service =
    | NoThread
    | Polling
    | CopyLock
    | Copying                // holds the lock
    | Connecting(pend: seq<nat>)  // released the lock, with the rest of its copy
    | ScanLock
    | Scanning               // holds the lock

  datatype Owner = Free | Svc | Start | Add(t: nat)

  datatype State = State(
    ctx: bool,
    clients: seq<nat>,
    pending: seq<nat>,
    owned: set<nat>,         // the clients whose pool is set
    lock: Owner,
    cancel: bool,            // lws owes a WAIT_CANCELLED
    svc: Service,
    starter: Starter,
    adders: seq<Adder>,
    started: seq<nat>)       // the initial calls of do_connect

  datatype Step =
    | Begin(t: nat, c: nat)
    | LockAdd(t: nat)
    | CheckRoom(t: nat)
    | Own(t: nat)
    | Store(t: nat)
    | ReadCtx(t: nat)
    | UnlockAdd(t: nat)
    | Wake(t: nat)
    | Publish
    | StartThread
    | LockStart
    | Look
    | UnlockStart
    | Rouse
    | OtherWake              // some other caller of lws_cancel_service
    | TakeCancel
    | LockCopy
    | Copy
    | ConnectNext
    | EndConnects
    | LockScan
    | EndScan

  predicate Adding(a: Step) {
    a.Begin? || a.LockAdd? || a.CheckRoom? || a.Own? || a.Store? || a.ReadCtx? || a.UnlockAdd? || a.Wake?
  }

  predicate AdderEnabled(s: State, a: Step, p: Adder)
    requires Adding(a)
  {
    match a
    case Begin(_, _) => p == Outside
    case LockAdd(_) => p.Locking? && s.lock == Free
    case CheckRoom(_) => p.Checking?
    case Own(_) => p.Owning?
    case Store(_) => p.Storing?
    case ReadCtx(_) => p == Stored
    case UnlockAdd(_) => p.Leaving? || p == Full
    case Wake(_) => p == Waking
  }

  predicate Enabled(s: State, a: Step) {
    if Adding(a) then a.t < |s.adders| && AdderEnabled(s, a, s.adders[a.t])
    else
      match a
      case Publish => s.starter == NotStarted
      case StartThread => s.starter == Published
      case LockStart => s.starter == Threaded && s.lock == Free
      case Look => s.starter == Looking
      case UnlockStart => s.starter.Looked?
      case Rouse => s.starter == Rousing
      case OtherWake => s.ctx
      case TakeCancel => s.svc == Polling && s.cancel
      case LockCopy => s.svc == CopyLock && s.lock == Free
      case Copy => s.svc == Copying
      case ConnectNext => s.svc.Connecting? && s.svc.pend != []
      case EndConnects => s.svc == Connecting([])
      case LockScan => s.svc == ScanLock && s.lock == Free
      case EndScan => s.svc == Scanning
      case _ => false
  }

  predicate Room(s: State) {
    |s.clients| + |s.pending| < MAX_CLIENTS
  }

  /** What an adder does next to its own position. */
  function Moved(s: State, a: Step, p: Adder): Adder
    requires Adding(a) && AdderEnabled(s, a, p)
  {
    match a
    case Begin(_, c) => if c in s.owned then Outside else Locking(c)
    case LockAdd(_) => Checking(p.c)
    case CheckRoom(_) => if Room(s) then Owning(p.c) else Full
    case Own(_) => Storing(p.c)
    case Store(_) => Stored
    case ReadCtx(_) => Leaving(s.ctx)
    case UnlockAdd(_) => if p == Leaving(true) then Waking else Outside
    case Wake(_) => Outside
  }

  function ApplyAdder(s: State, a: Step): State
    requires Adding(a) && Enabled(s, a)
  {
    var p := s.adders[a.t];
    var s1 := s.(adders := s.adders[a.t := Moved(s, a, p)]);
    match a
    case LockAdd(t) => s1.(lock := Add(t))
    case Own(_) => s1.(owned := s.owned + {p.c})
    case Store(_) => s1.(clients := s.clients + [p.c], pending := s.pending + [p.c])
    case UnlockAdd(_) => s1.(lock := Free)
    case Wake(_) => s1.(cancel := true)
    case _ => s1
  }

  function Apply(s: State, a: Step): State
    requires Enabled(s, a)
  {
    if Adding(a) then ApplyAdder(s, a)
    else
      match a
      case Publish => s.(ctx := true, starter := Published)
      case StartThread => s.(svc := Polling, starter := Threaded)
      case LockStart => s.(lock := Start, starter := Looking)
      case Look => s.(starter := Looked(s.pending != []))
      case UnlockStart => s.(lock := Free, starter := if s.starter.has then Rousing else Started)
      case Rouse => s.(cancel := true, starter := Started)
      case OtherWake => s.(cancel := true)
      case TakeCancel => s.(cancel := false, svc := CopyLock)
      case LockCopy => s.(lock := Svc, svc := Copying)
      case Copy => s.(lock := Free, svc := Connecting(s.pending), pending := [])
      case ConnectNext => s.(svc := Connecting(s.svc.pend[1..]), started := s.started + [s.svc.pend[0]])
      case EndConnects => s.(svc := ScanLock)
      case LockScan => s.(lock := Svc, svc := Scanning)
      case EndScan => s.(lock := Free, svc := Polling)
      case _ => s
  }

  predicate IsRun(s: State, run: seq<Step>)
    decreases |run|
  {
    run == [] || (Enabled(s, run[0]) && IsRun(Apply(s, run[0]), run[1..]))
  }

  function After(s: State, run: seq<Step>): State
    requires IsRun(s, run)
    decreases |run|
  {
    if run == [] then s else After(Apply(s, run[0]), run[1..])
  }

  predicate Init(s: State) {
    && !s.ctx && s.clients == [] && s.pending == [] && s.owned == {} && s.lock == Free && !s.cancel
    && s.svc == NoThread && s.starter == NotStarted && s.started == []
    && forall t :: 0 <= t < |s.adders| ==> s.adders[t] == Outside
  }

  // ---- The lock ----

  predicate AdderHolds(p: Adder) {
    p.Checking? || p.Owning? || p.Storing? || p == Stored || p.Leaving? || p == Full
  }

  predicate StarterHolds(p: Starter) {
    p == Looking || p.Looked?
  }

  predicate SvcHolds(v: Service) {
    v == Copying || v == Scanning
  }

  ghost predicate LockInv(s: State) {
    && (SvcHolds(s.svc) <==> s.lock == Svc)
    && (StarterHolds(s.starter) <==> s.lock == Start)
    && (s.lock.Add? ==> s.lock.t < |s.adders|)
    && (forall t :: 0 <= t < |s.adders| ==> (AdderHolds(s.adders[t]) <==> s.lock == Add(t)))
  }

  // ---- Every client gets its initial connect ----

  function Copied(v: Service): seq<nat> {
    if v.Connecting? then v.pend else []
  }

  /** What was added is what is pending, what the service thread has copied, and what has been started. */
  ghost predicate Accounted(s: State) {
    multiset(s.clients) == multiset(s.pending) + multiset(Copied(s.svc)) + multiset(s.started)
  }

  /** Every index into the arrays of 256 stays inside. */
  ghost predicate InBounds(s: State) {
    && |s.clients| <= MAX_CLIENTS && |s.pending| <= MAX_CLIENTS && |Copied(s.svc)| <= MAX_CLIENTS
    && (forall t :: 0 <= t < |s.adders| && (s.adders[t].Owning? || s.adders[t].Storing?) ==> Room(s))
  }

  /** Before the service thread runs nothing has left `pending`. */
  ghost predicate Untouched(s: State) {
    && (s.svc == NoThread <==> s.starter == NotStarted || s.starter == Published)
    && (s.svc == NoThread ==> s.clients == s.pending && s.started == [])
  }

  // ---- No added client is forgotten ----

  ghost predicate AdderOwes(s: State) {
    exists t :: 0 <= t < |s.adders| && (s.adders[t] == Stored || s.adders[t] == Leaving(true) || s.adders[t] == Waking)
  }

  predicate StarterOwes(p: Starter) {
    p == Published || p == Threaded || p == Looking || p == Looked(true) || p == Rousing
  }

  ghost predicate NotForgotten(s: State) {
    && (s.ctx <==> s.starter != NotStarted)
    && (s.starter == Looked(false) ==> s.pending == [])
    && (s.ctx && s.pending != [] ==>
          s.cancel || AdderOwes(s) || StarterOwes(s.starter) || s.svc == CopyLock || s.svc == Copying)
  }

  ghost predicate Inv(s: State) {
    LockInv(s) && Accounted(s) && InBounds(s) && Untouched(s) && NotForgotten(s)
  }

  lemma AdderMoves(s: State, a: Step)
    requires Adding(a) && Enabled(s, a)
    ensures var r := Apply(s, a);
            && r.adders == s.adders[a.t := Moved(s, a, s.adders[a.t])]
            && r.ctx == s.ctx && r.svc == s.svc && r.starter == s.starter && r.started == s.started
            && (if a.Store? then r.clients == s.clients + [s.adders[a.t].c]
               && r.pending == s.pending + [s.adders[a.t].c]
                else r.clients == s.clients && r.pending == s.pending)
            && r.lock == (if a.LockAdd? then Add(a.t) else if a.UnlockAdd? then Free else s.lock)
            && r.cancel == (s.cancel || a.Wake?)
  {
  }

  lemma AdderKeepsLock(s: State, a: Step)
    requires LockInv(s) && Adding(a) && Enabled(s, a)
    ensures LockInv(Apply(s, a))
  {
    AdderMoves(s, a);
    hide Apply;
  }

  lemma AdderKeepsAccounts(s: State, a: Step)
    requires LockInv(s) && Accounted(s) && InBounds(s) && Untouched(s) && Adding(a) && Enabled(s, a)
    ensures var r := Apply(s, a); Accounted(r) && InBounds(r) && Untouched(r)
  {
    AdderMoves(s, a);
    if a.Store? {
      StoreKeepsBounds(s, a);
      hide Apply, InBounds, LockInv;
    } else {
      assert a.CheckRoom? && Moved(s, a, s.adders[a.t]).Owning? ==> Room(s);
      assert Moved(s, a, s.adders[a.t]).Storing? ==> s.adders[a.t].Owning?;
      assert Moved(s, a, s.adders[a.t]).Owning? ==> a.CheckRoom?;
      hide Apply, Moved, LockInv, Enabled;
    }
  }

  /** The thread that stores holds the lock, so no other one is past the check of the room. */
  lemma StoreKeepsBounds(s: State, a: Step)
    requires LockInv(s) && InBounds(s) && a.Store? && Enabled(s, a)
    ensures InBounds(Apply(s, a))
  {
    AdderMoves(s, a);
    var r := Apply(s, a);
    assert AdderHolds(s.adders[a.t]) && Room(s);
    assert forall t :: 0 <= t < |s.adders| && t != a.t ==> !AdderHolds(s.adders[t]);
    assert r.adders[a.t] == Stored;
    hide Apply, LockInv;
  }

  lemma AdderForgetsNone(s: State, a: Step)
    requires LockInv(s) && NotForgotten(s) && Adding(a) && Enabled(s, a)
    ensures NotForgotten(Apply(s, a))
  {
    AdderMoves(s, a);
    var r := Apply(s, a);
    hide Apply;
    assert 0 <= a.t < |r.adders| && r.adders[a.t] == Moved(s, a, s.adders[a.t]);
    if AdderOwes(s) && !a.Wake? && !(a.UnlockAdd? && s.adders[a.t] == Leaving(true)) {
      var u :| 0 <= u < |s.adders| && (s.adders[u] == Stored || s.adders[u] == Leaving(true) || s.adders[u] == Waking);
      if u == a.t {
        assert a.ReadCtx?;
      }
      assert u == a.t || r.adders[u] == s.adders[u];
    }
  }

  lemma OtherKeepsLock(s: State, a: Step)
    requires LockInv(s) && Untouched(s) && !Adding(a) && Enabled(s, a)
    ensures LockInv(Apply(s, a)) && Apply(s, a).adders == s.adders
  {
    assert Apply(s, a).adders == s.adders;
  }

  lemma OtherKeepsAccounts(s: State, a: Step)
    requires Accounted(s) && InBounds(s) && Untouched(s) && !Adding(a) && Enabled(s, a)
    requires Apply(s, a).adders == s.adders
    ensures var r := Apply(s, a); Accounted(r) && InBounds(r) && Untouched(r)
  {
    if a == ConnectNext {
      ConnectNextAccounts(s);
      hide Accounted;
    } else if a == Copy {
      CopyAccounts(s);
    } else {
      OtherFrame(s, a);
      hide Apply, Copied;
    }
  }

  lemma OtherFrame(s: State, a: Step)
    requires !Adding(a) && a != ConnectNext && a != Copy && Enabled(s, a) && Untouched(s)
    ensures var r := Apply(s, a);
            && r.started == s.started && r.clients == s.clients && r.pending == s.pending
            && Copied(r.svc) == Copied(s.svc)
            && (r.svc == NoThread <==> s.svc == NoThread && a != StartThread)
            && (r.starter == NotStarted <==> s.starter == NotStarted && a != Publish)
            && (r.starter == Published <==> a == Publish || (s.starter == Published && a != StartThread))
            && (a == StartThread ==> s.starter == Published) && (a == Publish ==> s.starter == NotStarted)
  {
  }

  lemma CopyAccounts(s: State)
    requires Accounted(s) && InBounds(s) && Untouched(s) && Enabled(s, Copy)
    ensures var r := Apply(s, Copy); Accounted(r) && InBounds(r) && Untouched(r)
  {
  }

  lemma ConnectNextAccounts(s: State)
    requires Accounted(s) && Enabled(s, ConnectNext)
    ensures Accounted(Apply(s, ConnectNext))
  {
    assert s.svc.pend == [s.svc.pend[0]] + s.svc.pend[1..];
  }

  lemma OtherForgetsNone(s: State, a: Step)
    requires NotForgotten(s) && !Adding(a) && Enabled(s, a) && Apply(s, a).adders == s.adders
    ensures NotForgotten(Apply(s, a))
  {
    assert AdderOwes(s) <==> AdderOwes(Apply(s, a));
  }

  lemma {:induction false} InvAlways(s: State, run: seq<Step>)
    requires Inv(s) && IsRun(s, run)
    ensures Inv(After(s, run))
    decreases |run|
  {
    hide LockInv, Accounted, InBounds, Untouched, NotForgotten;
    if run != [] {
      var a := run[0];
      if Adding(a) {
        AdderKeepsLock(s, a);
        AdderKeepsAccounts(s, a);
        AdderForgetsNone(s, a);
      } else {
        OtherKeepsLock(s, a);
        OtherKeepsAccounts(s, a);
        OtherForgetsNone(s, a);
      }
      InvAlways(Apply(s, a), run[1..]);
    }
  }

  lemma InitInv(s: State)
    requires Init(s)
    ensures Inv(s)
  {
  }

  /**
   In every reachable state each added client has had its initial do_connect, or is in the service thread's
   copy, or is still pending, and just one of these for each time it was added; nobody writes behind an array.
   */
  lemma EveryClientAccountedFor(s: State, run: seq<Step>, t: nat)
    requires Init(s) && IsRun(s, run)
    ensures var r := After(s, run);
            && multiset(r.clients) == multiset(r.pending) + multiset(Copied(r.svc)) + multiset(r.started)
            && |r.clients| <= MAX_CLIENTS && |r.pending| <= MAX_CLIENTS && |Copied(r.svc)| <= MAX_CLIENTS
            && (forall c :: c in r.pending ==> c in r.clients)
            && (t < |r.adders| && r.adders[t].Storing? ==> |r.clients| < MAX_CLIENTS && |r.pending| < MAX_CLIENTS)
  {
    InitInv(s);
    InvAlways(s, run);
    var r := After(s, run);
    forall c | c in r.pending
      ensures c in r.clients
    {
      assert c in multiset(r.pending);
      assert c in multiset(r.clients);
    }
  }

  /**
   Once there is a context, a client that is pending will be seen: a wake-up is pending, or owed by a thread in
   wsp_pool_add or wsp_pool_start, or the service thread has yet to copy the array.
   */
  lemma NoClientForgotten(s: State, run: seq<Step>)
    requires Init(s) && IsRun(s, run)
    ensures var r := After(s, run);
            r.ctx && r.pending != [] ==>
              r.cancel || AdderOwes(r) || StarterOwes(r.starter) || r.svc == CopyLock || r.svc == Copying
  {
    InitInv(s);
    InvAlways(s, run);
  }

  /** Before the service thread runs every client counts twice: one is taken on exactly while there are under 128. */
  lemma RoomBeforeStart(s: State, run: seq<Step>, t: nat)
    requires Init(s) && IsRun(s, run) && Enabled(After(s, run), CheckRoom(t))
    ensures var r := After(s, run);
            r.svc == NoThread ==> (Apply(r, CheckRoom(t)).adders[t].Owning? <==> |r.clients| < MAX_CLIENTS / 2)
  {
    InitInv(s);
    InvAlways(s, run);
  }

  // ---- Wake-ups ----

  /** Nobody calls lws_cancel_service without a context. */
  ghost predicate WakesInv(s: State) {
    && (s.cancel || s.starter != NotStarted ==> s.ctx)
    && forall t :: 0 <= t < |s.adders| && (s.adders[t] == Leaving(true) || s.adders[t] == Waking) ==> s.ctx
  }

  lemma WakesStep(s: State, a: Step)
    requires WakesInv(s) && Enabled(s, a)
    ensures WakesInv(Apply(s, a))
  {
    if Adding(a) {
      AdderMoves(s, a);
      assert Moved(s, a, s.adders[a.t]) == Leaving(true) ==> s.ctx;
      assert Moved(s, a, s.adders[a.t]) == Waking ==> s.adders[a.t] == Leaving(true);
      assert a.Wake? ==> s.adders[a.t] == Waking;
      hide Apply, Enabled, Moved;
    } else {
      assert Apply(s, a).adders == s.adders;
    }
  }

  lemma {:induction false} WakesAlways(s: State, run: seq<Step>)
    requires WakesInv(s) && IsRun(s, run)
    ensures WakesInv(After(s, run))
    decreases |run|
  {
    hide Apply, Enabled, WakesInv;
    if run != [] {
      WakesStep(s, run[0]);
      WakesAlways(Apply(s, run[0]), run[1..]);
    }
  }

  /** In every reachable state a wake-up that is pending, or about to be asked for, has a context. */
  lemma WakesOnlyWithContext(s: State, run: seq<Step>, t: nat)
    requires Init(s) && IsRun(s, run)
    ensures var r := After(s, run);
            r.cancel || (t < |r.adders| && r.adders[t] == Waking) || r.starter == Rousing ==> r.ctx
  {
    WakesAlways(s, run);
  }

  predicate Rouses(a: Step) {
    a.Wake? || a == Rouse || a == OtherWake
  }

  lemma {:induction false} CancelStays(s: State, run: seq<Step>)
    requires s.cancel && IsRun(s, run) && TakeCancel !in run
    ensures After(s, run).cancel
    decreases |run|
  {
    if run != [] {
      assert run[0] in run;
      if Adding(run[0]) {
        AdderMoves(s, run[0]);
      }
      CancelStays(Apply(s, run[0]), run[1..]);
    }
  }

  /** Wake-ups coalesce and are not lost: whoever asks for one, it is pending until the service thread takes it. */
  lemma WakeUpStays(s: State, a: Step, more: seq<Step>)
    requires Enabled(s, a) && Rouses(a) && IsRun(Apply(s, a), more) && TakeCancel !in more
    ensures After(Apply(s, a), more).cancel
  {
    if Adding(a) {
      AdderMoves(s, a);
    }
    CancelStays(Apply(s, a), more);
  }

  // ---- Left to themselves, all threads come to rest, and everyone has been connected ----

  /** All steps but the beginning of a new call, the creation of the context and the wake-ups of others. */
  predicate Settling(a: Step) {
    !a.Begin? && a != Publish && a != OtherWake
  }

  predicate AllSettling(run: seq<Step>) {
    run == [] || (Settling(run[0]) && AllSettling(run[1..]))
  }

  function AdderRank(p: Adder): nat {
    match p
    case Outside => 0
    case Locking(_) => 7
    case Checking(_) => 6
    case Owning(_) => 5
    case Storing(_) => 4
    case Stored => 3
    case Leaving(_) => 2
    case Full => 2
    case Waking => 1
  }

  function StarterRank(p: Starter): nat {
    match p
    case NotStarted => 0
    case Published => 5
    case Threaded => 4
    case Looking => 3
    case Looked(_) => 2
    case Rousing => 1
    case Started => 0
  }

  function ServiceRank(v: Service): nat {
    match v
    case NoThread => 0
    case Polling => 0
    case CopyLock => 10
    case Copying => 9
    case Connecting(pend) => 5 + |pend|
    case ScanLock => 4
    case Scanning => 3
  }

  function AdderRanks(ps: seq<Adder>): nat {
    if ps == [] then 0 else AdderRanks(ps[..|ps| - 1]) + AdderRank(ps[|ps| - 1])
  }

  /** A bound on the steps that are left. */
  function StepsLeft(s: State): nat {
    30 * (AdderRanks(s.adders) + StarterRank(s.starter))
    + |s.pending| + (if s.cancel then 20 else 0) + ServiceRank(s.svc)
  }

  lemma {:induction false} RanksUpdate(ps: seq<Adder>, t: nat, p: Adder)
    requires t < |ps|
    ensures AdderRanks(ps[t := p]) == AdderRanks(ps) - AdderRank(ps[t]) + AdderRank(p)
  {
    var n := |ps| - 1;
    if t == n {
      assert ps[t := p][..n] == ps[..n];
    } else {
      assert ps[t := p][..n] == ps[..n][t := p];
      RanksUpdate(ps[..n], t, p);
    }
  }

  lemma AdderSettles(s: State, a: Step)
    requires Enabled(s, a) && Adding(a) && !a.Begin?
    ensures StepsLeft(Apply(s, a)) < StepsLeft(s) && s.clients <= Apply(s, a).clients
  {
    AdderMoves(s, a);
    RanksUpdate(s.adders, a.t, Moved(s, a, s.adders[a.t]));
    assert AdderRank(Moved(s, a, s.adders[a.t])) < AdderRank(s.adders[a.t]);
    hide Apply, Enabled, Moved, AdderRank, AdderRanks;
  }

  lemma OtherSettles(s: State, a: Step)
    requires Enabled(s, a) && !Adding(a) && Settling(a)
    ensures StepsLeft(Apply(s, a)) < StepsLeft(s) && Apply(s, a).clients == s.clients
  {
    assert Apply(s, a).adders == s.adders;
    hide AdderRanks;
  }

  lemma {:induction false} SettlingRun(s: State, run: seq<Step>)
    requires IsRun(s, run) && AllSettling(run)
    ensures |run| <= StepsLeft(s) && s.clients <= After(s, run).clients
    ensures s.starter != NotStarted ==> After(s, run).starter != NotStarted
    decreases |run|
  {
    hide Apply, Enabled, StepsLeft;
    if run != [] {
      var a := run[0];
      if Adding(a) {
        AdderSettles(s, a);
      } else {
        OtherSettles(s, a);
      }
      StarterStays(s, a);
      SettlingRun(Apply(s, a), run[1..]);
    }
  }

  lemma StarterStays(s: State, a: Step)
    requires Enabled(s, a)
    ensures s.starter != NotStarted ==> Apply(s, a).starter != NotStarted
  {
    if Adding(a) {
      AdderMoves(s, a);
    }
  }

  ghost predicate AtRest(s: State) {
    forall a :: Settling(a) ==> !Enabled(s, a)
  }

  /** What the thread that holds the lock does next. */
  function HolderNext(s: State): Step {
    match s.lock
    case Free => OtherWake
    case Svc => if s.svc == Copying then Copy else EndScan
    case Start => if s.starter == Looking then Look else UnlockStart
    case Add(t) =>
      if t >= |s.adders| then OtherWake
      else
        match s.adders[t]
        case Checking(_) => CheckRoom(t)
        case Owning(_) => Own(t)
        case Storing(_) => Store(t)
        case Stored => ReadCtx(t)
        case _ => UnlockAdd(t)
  }

  lemma HolderGoesOn(s: State)
    requires LockInv(s) && s.lock != Free
    ensures Settling(HolderNext(s)) && Enabled(s, HolderNext(s))
  {
    if s.lock.Add? {
      assert AdderHolds(s.adders[s.lock.t]);
    }
  }

  lemma AdderAtRest(s: State, t: nat)
    requires AtRest(s) && LockInv(s) && s.lock == Free && t < |s.adders|
    ensures s.adders[t] == Outside
  {
    assert !AdderHolds(s.adders[t]);
    assert Settling(LockAdd(t)) && Settling(Wake(t));
    assert !Enabled(s, LockAdd(t)) && !Enabled(s, Wake(t));
  }

  lemma StarterAtRest(s: State)
    requires AtRest(s) && LockInv(s) && s.lock == Free
    ensures s.starter == NotStarted || s.starter == Started
  {
    assert Settling(StartThread) && Settling(LockStart) && Settling(Rouse);
    assert !Enabled(s, StartThread) && !Enabled(s, LockStart) && !Enabled(s, Rouse);
  }

  lemma ServiceAtRest(s: State)
    requires AtRest(s) && LockInv(s) && s.lock == Free
    ensures s.svc == NoThread || (s.svc == Polling && !s.cancel)
  {
    assert Settling(LockCopy) && Settling(ConnectNext) && Settling(EndConnects) && Settling(LockScan);
    assert Settling(TakeCancel);
    assert !Enabled(s, LockCopy) && !Enabled(s, ConnectNext) && !Enabled(s, EndConnects) && !Enabled(s, LockScan);
    assert !Enabled(s, TakeCancel);
  }

  lemma RestHasStartedAll(s: State)
    requires Inv(s) && AtRest(s)
    ensures forall t :: 0 <= t < |s.adders| ==> s.adders[t] == Outside
    ensures s.starter != NotStarted ==> s.starter == Started && multiset(s.started) == multiset(s.clients)
  {
    assert s.lock == Free by {
      if s.lock != Free {
        HolderGoesOn(s);
      }
    }
    StarterAtRest(s);
    ServiceAtRest(s);
    forall t | 0 <= t < |s.adders|
      ensures s.adders[t] == Outside
    {
      AdderAtRest(s, t);
    }
    hide AtRest, LockInv, InBounds;
    if s.starter == Started {
      assert s.pending == [];
    }
  }

  /**
   From any reachable state where wsp_pool_start has made the context, all threads together come to rest after at most
   StepsLeft steps, in any order; then all calls have returned, and every client has been connected as often as added.
   */
  lemma ServiceStartsAll(s: State, run: seq<Step>, more: seq<Step>)
    requires Init(s) && IsRun(s, run) && After(s, run).starter != NotStarted
    requires IsRun(After(s, run), more) && AllSettling(more)
    ensures |more| <= StepsLeft(After(s, run))
    ensures var r := After(s, run); var q := After(r, more);
            && r.clients <= q.clients
            && (AtRest(q) ==>
                  && q.starter == Started && (forall t :: 0 <= t < |q.adders| ==> q.adders[t] == Outside)
                  && multiset(q.started) == multiset(q.clients))
  {
    hide Apply, Enabled, IsRun, After, StepsLeft, AtRest, AllSettling;
    hide LockInv, Accounted, InBounds, Untouched, NotForgotten;
    InitInv(s);
    InvAlways(s, run);
    SettlingRun(After(s, run), more);
    InvAlways(After(s, run), more);
    var q := After(After(s, run), more);
    if AtRest(q) {
      RestHasStartedAll(q);
    }
  }

  // ---- Exactly once per client, unless two threads add the same client at the same time ----

  /** The client that a thread is about to add. */
  function Target(p: Adder): Option<nat> {
    match p
    case Locking(c) => Some(c)
    case Checking(c) => Some(c)
    case Owning(c) => Some(c)
    case Storing(c) => Some(c)
    case _ => None
  }

  /** No thread passes the test of c->pool while another is adding the same client. */
  predicate Careful(s: State, a: Step) {
    a.Begin? && a.c !in s.owned ==> forall t :: 0 <= t < |s.adders| ==> Target(s.adders[t]) != Some(a.c)
  }

  predicate CarefulRun(s: State, run: seq<Step>)
    requires IsRun(s, run)
    decreases |run|
  {
    run == [] || (Careful(s, run[0]) && CarefulRun(Apply(s, run[0]), run[1..]))
  }

  ghost predicate Distinct(s: State) {
    && (forall i, j :: 0 <= i < j < |s.clients| ==> s.clients[i] != s.clients[j])
    && (forall c :: c in s.clients ==> c in s.owned)
    && (forall t :: 0 <= t < |s.adders| && Target(s.adders[t]).Some? ==> Target(s.adders[t]).value !in s.clients)
    && (forall t, u :: 0 <= t < u < |s.adders| && Target(s.adders[t]).Some? ==>
         Target(s.adders[t]) != Target(s.adders[u]))
    && (forall t :: 0 <= t < |s.adders| && s.adders[t].Storing? ==> s.adders[t].c in s.owned)
  }

  /** What a step does to the client that a thread is about to add, and to the clients that belong to the pool. */
  lemma AdderTargets(s: State, a: Step)
    requires Adding(a) && Enabled(s, a)
    ensures var p, q := s.adders[a.t], Moved(s, a, s.adders[a.t]);
            && (a.Begin? ==> Target(p) == None && Target(q) == if a.c in s.owned then None else Some(a.c))
            && (a.Store? ==> p == Storing(p.c) && Target(q) == None)
            && (!a.Begin? && !a.Store? ==> Target(q) == None || Target(q) == Target(p))
            && (q.Storing? ==> a == Own(a.t) && p == Owning(q.c))
            && Apply(s, a).owned == if a.Own? then s.owned + {p.c} else s.owned
  {
  }

  lemma DistinctStep(s: State, a: Step)
    requires Distinct(s) && Enabled(s, a) && Careful(s, a)
    ensures Distinct(Apply(s, a))
  {
    if Adding(a) {
      AdderMoves(s, a);
      AdderTargets(s, a);
      hide Apply, Enabled, Moved, Target;
    } else {
      OtherKeepsClients(s, a);
      hide Apply, Enabled, Target;
    }
  }

  lemma OtherKeepsClients(s: State, a: Step)
    requires !Adding(a) && Enabled(s, a)
    ensures var r := Apply(s, a); r.adders == s.adders && r.clients == s.clients && r.owned == s.owned
  {
  }

  lemma {:induction false} DistinctAlways(s: State, run: seq<Step>)
    requires Distinct(s) && IsRun(s, run) && CarefulRun(s, run)
    ensures Distinct(After(s, run))
    decreases |run|
  {
    if run != [] {
      DistinctStep(s, run[0]);
      DistinctAlways(Apply(s, run[0]), run[1..]);
    }
  }

  lemma {:induction false} AtMostOnce(q: seq<nat>, c: nat)
    requires forall i, j :: 0 <= i < j < |q| ==> q[i] != q[j]
    ensures multiset(q)[c] <= 1
  {
    if q != [] {
      var rest := q[..|q| - 1];
      AtMostOnce(rest, c);
      assert q == rest + [q[|q| - 1]];
      if q[|q| - 1] == c {
        assert c !in rest;
      }
    }
  }

  /** Then no client is connected twice: it has been started, or is still owed its start, once at most. */
  lemma ConnectedAtMostOnce(s: State, run: seq<Step>, c: nat)
    requires Init(s) && IsRun(s, run) && CarefulRun(s, run)
    ensures var r := After(s, run);
            && multiset(r.pending)[c] + multiset(Copied(r.svc))[c] + multiset(r.started)[c] <= 1
            && (c in r.clients ==> multiset(r.pending)[c] + multiset(Copied(r.svc))[c] + multiset(r.started)[c] == 1)
  {
    InitInv(s);
    InvAlways(s, run);
    DistinctAlways(s, run);
    var r := After(s, run);
    AtMostOnce(r.clients, c);
    assert c in r.clients ==> c in multiset(r.clients);
  }

  lemma {:induction false} Then(s: State, run: seq<Step>, a: Step) returns (longer: seq<Step>)
    requires IsRun(s, run) && Enabled(After(s, run), a)
    ensures IsRun(s, longer) && After(s, longer) == Apply(After(s, run), a)
    decreases |run|
  {
    hide Apply, Enabled;
    if run == [] {
      longer := [a];
      assert longer[0] == a && longer[1..] == [];
      assert IsRun(Apply(s, a), []) && After(Apply(s, a), []) == Apply(s, a);
    } else {
      var rest := Then(Apply(s, run[0]), run[1..], a);
      longer := [run[0]] + rest;
      assert longer[1..] == rest;
    }
  }

  /** What a thread that has seen c->pool unset does when it is left alone and there is room. */
  lemma AddsAlone(s: State, before: seq<Step>, t: nat, c: nat) returns (run: seq<Step>)
    requires IsRun(s, before)
    requires var m := After(s, before);
             t < |m.adders| && m.adders[t] == Locking(c) && m.lock == Free && Room(m)
    ensures IsRun(s, run)
    ensures var m, r := After(s, before), After(s, run);
            && r.clients == m.clients + [c] && r.pending == m.pending + [c] && r.lock == Free
            && |r.adders| == |m.adders| && forall u :: 0 <= u < |m.adders| && u != t ==> r.adders[u] == m.adders[u]
  {
    hide IsRun, After;
    run := TakesPlace(s, before, t, c);
    run := Then(s, run, ReadCtx(t));
    run := Then(s, run, UnlockAdd(t));
  }

  lemma TakesPlace(s: State, before: seq<Step>, t: nat, c: nat) returns (run: seq<Step>)
    requires IsRun(s, before)
    requires var m := After(s, before);
             t < |m.adders| && m.adders[t] == Locking(c) && m.lock == Free && Room(m)
    ensures IsRun(s, run)
    ensures var m, r := After(s, before), After(s, run);
            && r.clients == m.clients + [c] && r.pending == m.pending + [c]
            && r.adders == m.adders[t := Stored]
  {
    hide IsRun, After;
    run := Then(s, before, LockAdd(t));
    run := Then(s, run, CheckRoom(t));
    run := Then(s, run, Own(t));
    run := Then(s, run, Store(t));
    assert After(s, run).adders == After(s, before).adders[t := Stored];
  }

  /** Two threads that have both passed the test for one client can both add it. */
  lemma BothAdd(s: State, before: seq<Step>, t: nat, u: nat, c: nat) returns (run: seq<Step>)
    requires IsRun(s, before)
    requires var m := After(s, before);
             && t < |m.adders| && u < |m.adders| && t != u
             && m.adders[t] == Locking(c) && m.adders[u] == Locking(c)
             && m.lock == Free && |m.clients| + |m.pending| + 2 < MAX_CLIENTS
    ensures IsRun(s, run)
    ensures var m, r := After(s, before), After(s, run);
            r.clients == m.clients + [c, c] && r.pending == m.pending + [c, c]
  {
    hide IsRun, After, Apply;
    run := AddsAlone(s, before, t, c);
    run := AddsAlone(s, run, u, c);
  }

  /**
   The test of c->pool is made without the lock: whenever two threads are not adding, the lock is free and there
   is room, both can go on to add the same client.
   */
  lemma SameClientTwice(s: State, t: nat, u: nat, c: nat) returns (run: seq<Step>)
    requires t < |s.adders| && u < |s.adders| && t != u && s.adders[t] == Outside && s.adders[u] == Outside
    requires c !in s.owned && s.lock == Free && |s.clients| + |s.pending| + 2 < MAX_CLIENTS
    ensures IsRun(s, run) && After(s, run).clients == s.clients + [c, c] && After(s, run).pending == s.pending + [c, c]
  {
    run := Then(s, [], Begin(t, c));
    hide IsRun, After;
    run := Then(s, run, Begin(u, c));
    run := BothAdd(s, run, t, u, c);
  }
}
