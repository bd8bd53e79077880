/**
 Connecting, losing the connection and backing off, in the three engines
 (schedule_reconnect, do_connect, the connection callbacks and the reconnect timer).
 */
module Lifecycle {
  import opened Common

  datatype Variant = V1 | V2 | Pool
  datatype Phase = Idle | Connecting | Connected | ReconnectWait | Stopped
  datatype Config = Config(variant: Variant, initMs: int, maxMs: int)

  /** What lws_client_connect_via_info does: return a handle, return NULL, or report an error and return NULL. */
  datatype Outcome = Handle | Null | ErrorThenNull

  /**
   A client: its fields, the connections that lws keeps for it, and what the run has done since the last
   reset, which is the start or the last ESTABLISHED.
   */
  datatype Client = Client(
    begun: bool,             // the first do_connect has been made
    phase: Phase,
    wsi: nat,                // 0 is NULL
    timer: Option<int>,      // the armed reconnect timer: the millisecond it is due
    delay: int,              // reconnect_delay_ms
    fails: int,              // reconnect_fail_count
    stopping: bool,
    live: set<nat>,
    nextId: nat,
    clock: int,
    established: bool,       // whether the last reset was an ESTABLISHED
    attempts: nat,           // calls of do_connect since the last reset
    bare: nat,               // those of them that returned NULL and reported no error
    outcomes: seq<Outcome>,  // how all of them went
    schedulings: nat,        // timers armed since the last reset
    waited: int,             // the sum of their waits
    replaced: int,           // how much of these waits was left when a new deadline replaced an armed one
    since: int)              // when the first of them was armed

  const INT_SPAN := 0x1_0000_0000
  const INT_HALF := 0x8000_0000

  /** delay *= 2 on a 32-bit int (two's complement where C leaves it open). */
  function Twice(d: int): int {
    (2 * d + INT_HALF) % INT_SPAN - INT_HALF
  }

  function Capped(cfg: Config, d: int): int {
    if Twice(d) > cfg.maxMs then cfg.maxMs else Twice(d)
  }

  /** The wait that schedule_reconnect comes to before a hook is asked. */
  function Wait(cfg: Config, delay: int): int {
    match cfg.variant
    case V1 => delay
    case V2 => if delay == 0 then cfg.initMs else Capped(cfg, delay)
    case Pool => Capped(cfg, delay)
  }

  function Arm(c: Client, wait: int, delay: int): Client {
    c.(phase := ReconnectWait, timer := Some(c.clock + wait), delay := delay,
       schedulings := c.schedulings + 1, waited := c.waited + wait,
       replaced := c.replaced + if c.timer.Some? then c.timer.value - c.clock else 0,
       since := if c.schedulings == 0 then c.clock else c.since)
  }

  /** schedule_reconnect. `hook` is what on_reconnect_decision returns, if there is such a hook; v1 has none. */
  function Schedule(cfg: Config, c: Client, hook: Option<int>): Client {
    if cfg.variant == Pool && c.stopping then c
    else
      var wait := Wait(cfg, c.delay);
      if cfg.variant == V1 then Arm(c, wait, Capped(cfg, c.delay))
      else
        match hook
        case None => Arm(c, wait, wait)
        case Some(ret) => if ret < 0 then c.(phase := Stopped) else Arm(c, ret, ret)
  }

  /** CONNECTION_ERROR and CLOSED, up to the scheduling; `closed` tells which. */
  function Gone(cfg: Config, c: Client, closed: bool): Client {
    var c1 := c.(wsi := 0, live := c.live - {c.wsi});
    match cfg.variant
    case V1 => c1
    case V2 => c1.(phase := ReconnectWait)
    case Pool => if closed then c1.(phase := Idle) else c1
  }

  function Counted(cfg: Config, c: Client): Client {
    if cfg.variant == V1 then c else c.(fails := c.fails + 1)
  }

  function Lose(cfg: Config, c: Client, closed: bool, hook: Option<int>): Client {
    if c.stopping then Gone(cfg, c, closed)
    else Schedule(cfg, Counted(cfg, Gone(cfg, c, closed)), hook)
  }

  /** do_connect; the second hook answer is for the second scheduling of an error followed by NULL. */
  function DoConnect(cfg: Config, c: Client, o: Outcome, hook: Option<int>, hook2: Option<int>): Client {
    var c1 := Begun(c, o);
    match o
    case Handle => c1.(wsi := c.nextId, live := c.live + {c.nextId}, nextId := c.nextId + 1)
    case Null => Schedule(cfg, AfterNull(cfg, c1), hook)
    case ErrorThenNull => Schedule(cfg, AfterNull(cfg, Lose(cfg, c1, false, hook)), hook2)
  }

  function Begun(c: Client, o: Outcome): Client {
    c.(phase := Connecting, attempts := c.attempts + 1, bare := if o == Null then c.bare + 1 else c.bare,
       outcomes := c.outcomes + [o])
  }

  function AfterNull(cfg: Config, c: Client): Client {
    if cfg.variant == V2 then c.(wsi := 0, phase := ReconnectWait) else c.(wsi := 0)
  }

  function Establish(cfg: Config, c: Client): Client {
    c.(phase := Connected, delay := cfg.initMs, fails := if cfg.variant == V1 then c.fails else 0,
       established := true, attempts := 0, bare := 0, outcomes := [], schedulings := 0, waited := 0, replaced := 0)
  }

  /** WSI_DESTROY, which lws may deliver without CLOSED before it. */
  function Destroy(c: Client, wsi: nat): Client {
    c.(wsi := if c.wsi == wsi then 0 else c.wsi, live := c.live - {wsi})
  }

  datatype Event =
    | Start(o: Outcome, hook: Option<int>, hook2: Option<int>)
    | TimerFires(o: Outcome, hook: Option<int>, hook2: Option<int>)
    | Established
    | Error(hook: Option<int>)
    | Closed(hook: Option<int>)
    | WsiDestroy(wsi: nat)
    | SetStopping
    | Tick(now: int)

  /** When lws or the application can bring an event about. */
  predicate Enabled(cfg: Config, c: Client, e: Event) {
    match e
    case Start(_, _, _) => !c.begun
    case TimerFires(_, _, _) =>
      && c.timer.Some? && c.clock >= c.timer.value
      && (cfg.variant == V1 ==> !c.stopping && c.phase == ReconnectWait)
    case Established => c.wsi != 0 && c.phase == Connecting
    case Error(_) => c.wsi != 0 && c.phase == Connecting
    case Closed(_) => c.wsi != 0 && c.phase == Connected
    case WsiDestroy(w) => w != 0
    case SetStopping => true
    case Tick(now) => now >= c.clock
  }

  /** The reconnect timer is one-shot: firing disarms it. */
  function Apply(cfg: Config, c: Client, e: Event): Client {
    match e
    case Start(o, h, h2) => DoConnect(cfg, c.(begun := true), o, h, h2)
    case TimerFires(o, h, h2) =>
      if c.stopping then c.(timer := None) else DoConnect(cfg, c.(timer := None), o, h, h2)
    case Established => Establish(cfg, c)
    case Error(h) => Lose(cfg, c, false, h)
    case Closed(h) => Lose(cfg, c, true, h)
    case WsiDestroy(w) => Destroy(c, w)
    case SetStopping => c.(stopping := true)
    case Tick(now) => c.(clock := now)
  }

  function Init(cfg: Config, clock: int): Client {
    Client(false, Idle, 0, None, if cfg.variant == V2 then 0 else cfg.initMs, 0, false, {}, 1, clock,
           false, 0, 0, [], 0, 0, 0, clock)
  }

  /** A run is the events it takes; every event must be enabled where it happens. */
  predicate IsRun(cfg: Config, c: Client, es: seq<Event>)
    decreases |es|
  {
    es == [] || (Enabled(cfg, c, es[0]) && IsRun(cfg, Apply(cfg, c, es[0]), es[1..]))
  }

  function After(cfg: Config, c: Client, es: seq<Event>): Client
    decreases |es|
  {
    if es == [] then c else After(cfg, Apply(cfg, c, es[0]), es[1..])
  }

  // ---- At most one connection ----

  ghost predicate OneConnection(c: Client) {
    && c.live == (if c.wsi == 0 then {} else {c.wsi})
    && c.wsi < c.nextId
    && (c.timer.Some? ==> c.wsi == 0)
    && (c.phase == ReconnectWait ==> c.wsi == 0)
    && (!c.begun ==> c.wsi == 0 && c.timer.None?)
  }

  predicate Connects(e: Event) {
    e.Start? || e.TimerFires?
  }

  ghost predicate NoConnection(c: Client) {
    OneConnection(c) && c.begun && c.wsi == 0
  }

  lemma ScheduleKeepsNone(cfg: Config, c: Client, hook: Option<int>)
    requires NoConnection(c)
    ensures NoConnection(Schedule(cfg, c, hook))
  {
  }

  lemma LoseLeavesNone(cfg: Config, c: Client, closed: bool, hook: Option<int>)
    requires OneConnection(c) && c.begun && c.timer.None?
    ensures NoConnection(Lose(cfg, c, closed, hook))
  {
    assert c.live - {c.wsi} == {};
    ScheduleKeepsNone(cfg, Counted(cfg, Gone(cfg, c, closed)), hook);
    hide Schedule;
  }

  lemma NullKeepsOne(cfg: Config, c: Client, o: Outcome, hook: Option<int>, hook2: Option<int>)
    requires NoConnection(c) && c.timer.None? && o == Null
    ensures NoConnection(DoConnect(cfg, c, o, hook, hook2))
  {
    ScheduleKeepsNone(cfg, AfterNull(cfg, Begun(c, o)), hook);
  }

  lemma ErrorKeepsOne(cfg: Config, c: Client, o: Outcome, hook: Option<int>, hook2: Option<int>)
    requires NoConnection(c) && c.timer.None? && o == ErrorThenNull
    ensures NoConnection(DoConnect(cfg, c, o, hook, hook2))
  {
    hide Schedule, Lose;
    var c1 := Begun(c, o);
    LoseLeavesNone(cfg, c1, false, hook);
    ScheduleKeepsNone(cfg, AfterNull(cfg, Lose(cfg, c1, false, hook)), hook2);
  }

  lemma ConnectKeepsOne(cfg: Config, c: Client, o: Outcome, hook: Option<int>, hook2: Option<int>)
    requires NoConnection(c) && c.timer.None?
    ensures OneConnection(DoConnect(cfg, c, o, hook, hook2))
  {
    hide Schedule, Lose;
    match o
    case Handle =>
    case Null => NullKeepsOne(cfg, c, o, hook, hook2);
    case ErrorThenNull => ErrorKeepsOne(cfg, c, o, hook, hook2);
  }

  lemma OneConnectionStep(cfg: Config, c: Client, e: Event)
    requires OneConnection(c) && Enabled(cfg, c, e)
    ensures OneConnection(Apply(cfg, c, e))
    ensures Connects(e) ==> c.wsi == 0
  {
    match e
    case Start(o, h, h2) => ConnectKeepsOne(cfg, c.(begun := true), o, h, h2);
    case TimerFires(o, h, h2) => if !c.stopping { ConnectKeepsOne(cfg, c.(timer := None), o, h, h2); }
    case Error(h) => LoseLeavesNone(cfg, c, false, h);
    case Closed(h) => LoseLeavesNone(cfg, c, true, h);
    case _ =>
  }

  lemma {:induction false} OneConnectionAlways(cfg: Config, c: Client, es: seq<Event>)
    requires OneConnection(c) && IsRun(cfg, c, es)
    ensures OneConnection(After(cfg, c, es))
    decreases |es|
  {
    if es != [] {
      OneConnectionStep(cfg, c, es[0]);
      OneConnectionAlways(cfg, Apply(cfg, c, es[0]), es[1..]);
    }
  }

  /**
   In every run of each engine lws keeps at most one connection for a client; do_connect is entered, by the
   start or by the timer, only when there is none; and RECONNECT_WAIT or an armed timer means there is none.
   */
  lemma NeverTwoConnections(cfg: Config, clock: int, es: seq<Event>, e: Event)
    requires IsRun(cfg, Init(cfg, clock), es)
    ensures var c := After(cfg, Init(cfg, clock), es);
            && |c.live| <= 1
            && ((Connects(e) && Enabled(cfg, c, e)) || c.phase == ReconnectWait || c.timer.Some? ==>
                 c.wsi == 0 && c.live == {})
  {
    OneConnectionAlways(cfg, Init(cfg, clock), es);
    var c := After(cfg, Init(cfg, clock), es);
    if Connects(e) && Enabled(cfg, c, e) {
      OneConnectionStep(cfg, c, e);
    }
  }

  // ---- A client never gets stuck ----

  /** No connection ends by WSI_DESTROY alone. */
  predicate NoDestroy(es: seq<Event>) {
    es == [] || (!es[0].WsiDestroy? && NoDestroy(es[1..]))
  }

  ghost predicate AliveInv(cfg: Config, c: Client) {
    && (!c.begun ==> c.phase == Idle && !c.established)
    && (c.wsi != 0 ==> c.begun && (c.phase == Connecting || c.phase == Connected))
    && (c.begun && !c.stopping ==> c.wsi != 0 || c.timer.Some? || (c.phase == Stopped && cfg.variant != V1))
    && (c.phase == Connected ==>
          c.established && c.attempts == 0 && (c.wsi != 0 || (cfg.variant == V1 && c.stopping)))
    && (c.begun && c.phase == Idle ==> cfg.variant == Pool && c.stopping && c.established && c.attempts == 0)
    && (c.phase == ReconnectWait && cfg.variant != V2 ==> c.schedulings > 0)
    && (cfg.variant == V1 && c.timer.Some? ==> c.phase == ReconnectWait)
  }

  /** Without a connection, and with nothing yet that a scheduling does not see to. */
  ghost predicate Down(cfg: Config, c: Client) {
    && c.begun && c.wsi == 0 && c.phase != Connected && c.phase != Idle
    && (c.phase == ReconnectWait && cfg.variant != V2 ==> c.schedulings > 0)
    && (cfg.variant == V1 && c.timer.Some? ==> c.phase == ReconnectWait)
  }

  lemma ScheduleAlive(cfg: Config, c: Client, hook: Option<int>)
    requires Down(cfg, c)
    ensures AliveInv(cfg, Schedule(cfg, c, hook)) && Down(cfg, Schedule(cfg, c, hook))
  {
  }

  lemma LoseAlive(cfg: Config, c: Client, closed: bool, hook: Option<int>)
    requires AliveInv(cfg, c) && c.begun && (closed <==> c.phase == Connected) && c.phase != Idle && c.timer.None?
    ensures AliveInv(cfg, Lose(cfg, c, closed, hook))
  {
    if !c.stopping {
      ScheduledAnyway(cfg, Counted(cfg, Gone(cfg, c, closed)), hook);
    }
    hide Schedule;
  }

  /** A client that is not stopping is scheduled, or stopped by a hook, whatever its phase was. */
  lemma ScheduledAnyway(cfg: Config, c: Client, hook: Option<int>)
    requires c.begun && c.wsi == 0 && !c.stopping && c.timer.None?
    ensures AliveInv(cfg, Schedule(cfg, c, hook))
  {
  }

  lemma ErrorAlive(cfg: Config, c: Client, hook: Option<int>)
    requires c.begun && c.wsi == 0 && c.timer.None? && c.phase == Connecting
    ensures Down(cfg, Lose(cfg, c, false, hook))
  {
    if !c.stopping {
      ScheduleAlive(cfg, Counted(cfg, Gone(cfg, c, false)), hook);
    }
    hide Schedule;
  }

  lemma ConnectAlive(cfg: Config, c: Client, o: Outcome, hook: Option<int>, hook2: Option<int>)
    requires OneConnection(c) && c.begun && c.wsi == 0 && c.timer.None?
    ensures AliveInv(cfg, DoConnect(cfg, c, o, hook, hook2))
  {
    var c1 := Begun(c, o);
    match o
    case Handle =>
    case Null =>
      ScheduleAlive(cfg, AfterNull(cfg, c1), hook);
      hide Schedule, AliveInv;
    case ErrorThenNull =>
      ErrorAlive(cfg, c1, hook);
      DownAfterNull(cfg, Lose(cfg, c1, false, hook));
      ScheduleAlive(cfg, AfterNull(cfg, Lose(cfg, c1, false, hook)), hook2);
      hide Schedule, Lose, AliveInv, Down;
  }

  lemma DownAfterNull(cfg: Config, c: Client)
    requires Down(cfg, c)
    ensures Down(cfg, AfterNull(cfg, c))
  {
  }

  lemma AliveStep(cfg: Config, c: Client, e: Event)
    requires OneConnection(c) && AliveInv(cfg, c) && Enabled(cfg, c, e) && !e.WsiDestroy?
    ensures AliveInv(cfg, Apply(cfg, c, e))
  {
    hide DoConnect, Lose;
    match e
    case Start(o, h, h2) => ConnectAlive(cfg, c.(begun := true), o, h, h2);
    case TimerFires(o, h, h2) => if !c.stopping { ConnectAlive(cfg, c.(timer := None), o, h, h2); }
    case Error(h) => LoseAlive(cfg, c, false, h);
    case Closed(h) => LoseAlive(cfg, c, true, h);
    case _ =>
  }

  lemma {:induction false} AliveAlways(cfg: Config, c: Client, es: seq<Event>)
    requires OneConnection(c) && AliveInv(cfg, c) && IsRun(cfg, c, es) && NoDestroy(es)
    ensures AliveInv(cfg, After(cfg, c, es))
    decreases |es|
  {
    hide Apply, Enabled, OneConnection, AliveInv;
    if es != [] {
      OneConnectionStep(cfg, c, es[0]);
      AliveStep(cfg, c, es[0]);
      AliveAlways(cfg, Apply(cfg, c, es[0]), es[1..]);
    }
  }

  /**
   Unless it is stopping, a client always goes on: it has not begun and can, or it has a connection, which can be
   established or lost, or its timer is armed and brings the next attempt when it is due, or a hook has stopped it.
   */
  lemma NeverStuck(cfg: Config, clock: int, es: seq<Event>, o: Outcome, h: Option<int>, h2: Option<int>)
    requires IsRun(cfg, Init(cfg, clock), es) && NoDestroy(es) && !After(cfg, Init(cfg, clock), es).stopping
    ensures var c := After(cfg, Init(cfg, clock), es);
            if !c.begun then Enabled(cfg, c, Start(o, h, h2))
            else if c.wsi != 0 then
              || (Enabled(cfg, c, Established) && Enabled(cfg, c, Error(h)) && c.phase == Connecting)
              || (Enabled(cfg, c, Closed(h)) && c.phase == Connected)
            else if c.timer.Some? then
              var tick := Event.Tick(Max(c.clock, c.timer.value));
              Enabled(cfg, c, tick) && Enabled(cfg, Apply(cfg, c, tick), TimerFires(o, h, h2))
            else c.phase == Stopped && cfg.variant != V1
  {
    OneConnectionAlways(cfg, Init(cfg, clock), es);
    AliveAlways(cfg, Init(cfg, clock), es);
    hide OneConnection, IsRun, After, Init, NoDestroy;
  }

  /**
   What `state` tells about a client: CONNECTED, that there is a connection, unless v1 is stopping; IDLE, once begun,
   that a pool client was stopped while connected; RECONNECT_WAIT in v1 and the pool, that a timer has been armed.
   */
  lemma PhaseTells(cfg: Config, clock: int, es: seq<Event>)
    requires IsRun(cfg, Init(cfg, clock), es) && NoDestroy(es)
    ensures var c := After(cfg, Init(cfg, clock), es);
            && (c.phase == Connected ==>
                  c.established && c.attempts == 0 && (c.wsi != 0 || (cfg.variant == V1 && c.stopping)))
            && (c.begun && c.phase == Idle ==> cfg.variant == Pool && c.stopping && c.established && c.attempts == 0)
            && (c.phase == ReconnectWait && cfg.variant != V2 ==> c.schedulings > 0)
  {
    AliveAlways(cfg, Init(cfg, clock), es);
  }

  // ---- Stopping, and a connection that is destroyed ----

  function CountFires(es: seq<Event>): nat {
    if es == [] then 0 else (if es[0].TimerFires? then 1 else 0) + CountFires(es[1..])
  }

  lemma LoseStopping(cfg: Config, c: Client, closed: bool, hook: Option<int>)
    requires c.stopping
    ensures var r := Lose(cfg, c, closed, hook);
            r.stopping && r.begun == c.begun && r.attempts == c.attempts && r.timer == c.timer
  {
  }

  lemma {:induction false} StoppingRun(cfg: Config, c: Client, es: seq<Event>)
    requires c.stopping && c.begun && IsRun(cfg, c, es)
    ensures After(cfg, c, es).attempts <= c.attempts
    ensures CountFires(es) <= if c.timer.Some? then 1 else 0
    decreases |es|
  {
    if es != [] {
      match es[0] {
        case Error(h) => LoseStopping(cfg, c, false, h);
        case Closed(h) => LoseStopping(cfg, c, true, h);
        case _ =>
      }
      hide Lose;
      StoppingRun(cfg, Apply(cfg, c, es[0]), es[1..]);
    }
  }

  /** Once a client that has begun is stopping, no attempt follows, and its timer fires at most once more. */
  lemma StopEndsAttempts(cfg: Config, clock: int, es: seq<Event>, more: seq<Event>)
    requires IsRun(cfg, Init(cfg, clock), es) && After(cfg, Init(cfg, clock), es).begun
    requires IsRun(cfg, Apply(cfg, After(cfg, Init(cfg, clock), es), SetStopping), more)
    ensures var c := After(cfg, Init(cfg, clock), es);
            && Enabled(cfg, c, SetStopping)
            && After(cfg, Apply(cfg, c, SetStopping), more).attempts <= c.attempts && CountFires(more) <= 1
  {
    StoppingRun(cfg, Apply(cfg, After(cfg, Init(cfg, clock), es), SetStopping), more);
  }

  lemma {:induction false} DestroyedRun(cfg: Config, c: Client, es: seq<Event>)
    requires c.begun && c.wsi == 0 && c.timer.None? && IsRun(cfg, c, es)
    ensures var r := After(cfg, c, es); r.wsi == 0 && r.attempts == c.attempts
    decreases |es|
  {
    if es != [] {
      DestroyedRun(cfg, Apply(cfg, c, es[0]), es[1..]);
    }
  }

  /** A connection that ends by WSI_DESTROY alone is the last one: no engine attempts another. */
  lemma DestroyedForGood(cfg: Config, clock: int, es: seq<Event>, more: seq<Event>)
    requires IsRun(cfg, Init(cfg, clock), es) && After(cfg, Init(cfg, clock), es).wsi != 0
    requires var c := After(cfg, Init(cfg, clock), es); IsRun(cfg, Apply(cfg, c, WsiDestroy(c.wsi)), more)
    ensures var c := After(cfg, Init(cfg, clock), es); var r := After(cfg, Apply(cfg, c, WsiDestroy(c.wsi)), more);
            Enabled(cfg, c, WsiDestroy(c.wsi)) && r.wsi == 0 && r.attempts == c.attempts
  {
    OneConnectionAlways(cfg, Init(cfg, clock), es);
    var c := After(cfg, Init(cfg, clock), es);
    DestroyedRun(cfg, Apply(cfg, c, WsiDestroy(c.wsi)), more);
  }

  // ---- The closed forms of the backoff ----

  const BOUND := 0x4000_0000  // 2^30

  ghost predicate Sane(cfg: Config) {
    0 < cfg.initMs <= cfg.maxMs < BOUND
  }

  /** Doubling is exact for delays below 2^30 and no others: a hook that asks for more makes the next wait negative. */
  lemma TwiceIsExactIff(d: int)
    requires 0 <= d < INT_HALF
    ensures Twice(d) == 2 * d <==> d < BOUND
    ensures d >= BOUND ==> Twice(d) < 0
  {
  }

  /** 2^k times the first delay, at most maxMs. */
  function Form(cfg: Config, k: nat): int {
    Min(Pow2(k) * cfg.initMs, cfg.maxMs)
  }

  lemma FormNext(cfg: Config, k: nat)
    requires Sane(cfg)
    ensures 0 < Form(cfg, k) <= cfg.maxMs
    ensures Capped(cfg, Form(cfg, k)) == Form(cfg, k + 1)
  {
    assert Pow2(k + 1) == 2 * Pow2(k);
    var p := Pow2(k) * cfg.initMs;
    assert p >= 1 && Pow2(k + 1) * cfg.initMs == 2 * p;
    assert Twice(Form(cfg, k)) == 2 * Form(cfg, k);
  }

  /** The wait of the k-th scheduling since the reset. */
  function WaitForm(cfg: Config, established: bool, k: nat): int
    requires k >= 1
  {
    match cfg.variant
    case V1 => Form(cfg, k - 1)
    case V2 => if established then Form(cfg, k) else Form(cfg, k - 1)
    case Pool => Form(cfg, k)
  }

  ghost predicate DelayForm(cfg: Config, c: Client) {
    c.delay == match cfg.variant
               case V1 => Form(cfg, c.schedulings)
               case V2 => if c.established then Form(cfg, c.schedulings)
                          else if c.schedulings == 0 then 0
                          else Form(cfg, c.schedulings - 1)
               case Pool => Form(cfg, c.schedulings)
  }

  /** A run in which no hook overrides the backoff. */
  predicate NoHook(e: Event) {
    match e
    case Start(_, h, h2) => h.None? && h2.None?
    case TimerFires(_, h, h2) => h.None? && h2.None?
    case Error(h) => h.None?
    case Closed(h) => h.None?
    case _ => true
  }

  lemma ScheduleWaits(cfg: Config, c: Client)
    requires Sane(cfg) && DelayForm(cfg, c) && !(cfg.variant == Pool && c.stopping)
    ensures var r := Schedule(cfg, c, None);
            && r.timer == Some(c.clock + WaitForm(cfg, c.established, c.schedulings + 1))
            && r.schedulings == c.schedulings + 1
            && r.waited == c.waited + WaitForm(cfg, c.established, c.schedulings + 1)
            && DelayForm(cfg, r)
  {
    FormNext(cfg, c.schedulings);
    if c.schedulings > 0 {
      FormNext(cfg, c.schedulings - 1);
    }
    assert Form(cfg, 0) == cfg.initMs;
  }

  lemma LoseKeepsForm(cfg: Config, c: Client, closed: bool)
    requires Sane(cfg) && DelayForm(cfg, c)
    ensures DelayForm(cfg, Lose(cfg, c, closed, None))
  {
    if !c.stopping {
      ScheduleWaits(cfg, Counted(cfg, Gone(cfg, c, closed)));
      hide Schedule;
    }
  }

  lemma ConnectKeepsForm(cfg: Config, c: Client, o: Outcome)
    requires Sane(cfg) && DelayForm(cfg, c)
    ensures DelayForm(cfg, DoConnect(cfg, c, o, None, None))
  {
    var c1 := Begun(c, o);
    if o == Null {
      if !(cfg.variant == Pool && c.stopping) {
        ScheduleWaits(cfg, AfterNull(cfg, c1));
      }
    } else if o == ErrorThenNull {
      LoseKeepsForm(cfg, c1, false);
      if !(cfg.variant == Pool && c.stopping) {
        ScheduleWaits(cfg, AfterNull(cfg, Lose(cfg, c1, false, None)));
      }
    }
  }

  lemma DelayFormStep(cfg: Config, c: Client, e: Event)
    requires Sane(cfg) && DelayForm(cfg, c) && NoHook(e)
    ensures DelayForm(cfg, Apply(cfg, c, e))
  {
    match e
    case Start(o, _, _) => ConnectKeepsForm(cfg, c.(begun := true), o);
    case TimerFires(o, _, _) => if !c.stopping { ConnectKeepsForm(cfg, c.(timer := None), o); }
    case Established => assert Form(cfg, 0) == cfg.initMs;
    case Error(_) => LoseKeepsForm(cfg, c, false);
    case Closed(_) => LoseKeepsForm(cfg, c, true);
    case _ =>
  }

  predicate AllNoHook(es: seq<Event>) {
    es == [] || (NoHook(es[0]) && AllNoHook(es[1..]))
  }

  lemma {:induction false} DelayFormAlways(cfg: Config, c: Client, es: seq<Event>)
    requires Sane(cfg) && DelayForm(cfg, c) && AllNoHook(es)
    ensures DelayForm(cfg, After(cfg, c, es))
    decreases |es|
  {
    if es != [] {
      DelayFormStep(cfg, c, es[0]);
      DelayFormAlways(cfg, Apply(cfg, c, es[0]), es[1..]);
    }
  }

  /**
   At the end of any run without a hook, the next scheduling, being number k since the reset, waits
   min(2^(k-1) init, max) in v1, min(2^k init, max) in the pool; v2 waits like v1 before its first
   ESTABLISHED and like the pool afterwards.
   */
  lemma BackoffForm(cfg: Config, clock: int, es: seq<Event>)
    requires Sane(cfg) && AllNoHook(es) && IsRun(cfg, Init(cfg, clock), es)
    ensures var c := After(cfg, Init(cfg, clock), es);
            !(cfg.variant == Pool && c.stopping) ==>
              Schedule(cfg, c, None).timer == Some(c.clock + WaitForm(cfg, c.established, c.schedulings + 1))
  {
    assert Form(cfg, 0) == cfg.initMs;
    DelayFormAlways(cfg, Init(cfg, clock), es);
    var c := After(cfg, Init(cfg, clock), es);
    if !(cfg.variant == Pool && c.stopping) {
      ScheduleWaits(cfg, c);
    }
  }

  // ---- How long an outage of v1 keeps it from trying ----

  function SumOfForms(cfg: Config, n: nat): int {
    if n == 0 then 0 else SumOfForms(cfg, n - 1) + Form(cfg, n - 1)
  }

  /** j doublings are what it takes to reach maxMs. */
  ghost predicate Saturates(cfg: Config, j: nat) {
    Pow2(j) * cfg.initMs >= cfg.maxMs && forall i: nat :: i < j ==> Pow2(i) * cfg.initMs < cfg.maxMs
  }

  lemma {:induction false} SumBeforeSaturation(cfg: Config, j: nat, n: nat)
    requires Sane(cfg) && Saturates(cfg, j) && n <= j
    ensures SumOfForms(cfg, n) == cfg.initMs * (Pow2(n) - 1)
  {
    if n > 0 {
      SumBeforeSaturation(cfg, j, n - 1);
      assert Pow2(n - 1) * cfg.initMs < cfg.maxMs;
      assert cfg.initMs * (2 * Pow2(n - 1) - 1) == cfg.initMs * (Pow2(n - 1) - 1) + Pow2(n - 1) * cfg.initMs;
    }
  }

  lemma SaturatedForm(cfg: Config, j: nat, n: nat)
    requires Sane(cfg) && Saturates(cfg, j) && j <= n
    ensures Form(cfg, n) == cfg.maxMs
  {
    Pow2Monotone(j, n);
    TimesMonotone(Pow2(j), Pow2(n), cfg.initMs);
  }

  lemma TimesMonotone(a: int, b: int, x: nat)
    requires a <= b
    ensures a * x <= b * x
  {
  }

  lemma OneMore(k: int, x: int)
    ensures (k + 1) * x == k * x + x
  {
  }

  lemma {:induction false} OutageSum(cfg: Config, j: nat, n: nat)
    requires Sane(cfg) && Saturates(cfg, j) && j <= n
    ensures SumOfForms(cfg, n) == cfg.initMs * (Pow2(j) - 1) + (n - j) * cfg.maxMs
  {
    hide Saturates, Form, Pow2;
    if n == j {
      SumBeforeSaturation(cfg, j, j);
    } else {
      OutageSum(cfg, j, n - 1);
      SaturatedForm(cfg, j, n - 1);
      OneMore(n - 1 - j, cfg.maxMs);
    }
  }

  lemma ScheduleSums(cfg: Config, c: Client)
    requires Sane(cfg) && cfg.variant == V1 && DelayForm(cfg, c) && c.waited == SumOfForms(cfg, c.schedulings)
    ensures var r := Schedule(cfg, c, None); DelayForm(cfg, r) && r.waited == SumOfForms(cfg, r.schedulings)
  {
    ScheduleWaits(cfg, c);
  }

  lemma WaitedStep(cfg: Config, c: Client, e: Event)
    requires Sane(cfg) && cfg.variant == V1 && NoHook(e) && DelayForm(cfg, c)
    requires c.waited == SumOfForms(cfg, c.schedulings)
    ensures var r := Apply(cfg, c, e); r.waited == SumOfForms(cfg, r.schedulings)
  {
    hide Schedule;
    match e
    case Start(o, _, _) => ConnectSums(cfg, c.(begun := true), o);
    case TimerFires(o, _, _) => if !c.stopping { ConnectSums(cfg, c.(timer := None), o); }
    case Error(_) => LoseSums(cfg, c, false);
    case Closed(_) => LoseSums(cfg, c, true);
    case _ =>
  }

  lemma LoseSums(cfg: Config, c: Client, closed: bool)
    requires Sane(cfg) && cfg.variant == V1 && DelayForm(cfg, c) && c.waited == SumOfForms(cfg, c.schedulings)
    ensures var r := Lose(cfg, c, closed, None); DelayForm(cfg, r) && r.waited == SumOfForms(cfg, r.schedulings)
  {
    if !c.stopping {
      ScheduleSums(cfg, c.(wsi := 0, live := c.live - {c.wsi}));
    }
  }

  lemma ConnectSums(cfg: Config, c: Client, o: Outcome)
    requires Sane(cfg) && cfg.variant == V1 && DelayForm(cfg, c) && c.waited == SumOfForms(cfg, c.schedulings)
    ensures var r := DoConnect(cfg, c, o, None, None); r.waited == SumOfForms(cfg, r.schedulings)
  {
    var c1 := Begun(c, o);
    if o == Null {
      ScheduleSums(cfg, AfterNull(cfg, c1));
    } else if o == ErrorThenNull {
      LoseSums(cfg, c1, false);
      ScheduleSums(cfg, AfterNull(cfg, Lose(cfg, c1, false, None)));
    }
  }

  lemma {:induction false} WaitedAlways(cfg: Config, c: Client, es: seq<Event>)
    requires Sane(cfg) && cfg.variant == V1 && AllNoHook(es) && DelayForm(cfg, c)
    requires c.waited == SumOfForms(cfg, c.schedulings)
    ensures var r := After(cfg, c, es); r.waited == SumOfForms(cfg, r.schedulings)
    decreases |es|
  {
    hide Apply, DelayForm, SumOfForms;
    if es != [] {
      DelayFormStep(cfg, c, es[0]);
      WaitedStep(cfg, c, es[0]);
      WaitedAlways(cfg, Apply(cfg, c, es[0]), es[1..]);
    }
  }

  /** In every run of v1, n consecutive schedulings, n at least j, wait init (2^j - 1) + (n - j) max in total. */
  lemma OutageWaits(cfg: Config, clock: int, es: seq<Event>, j: nat)
    requires Sane(cfg) && cfg.variant == V1 && Saturates(cfg, j)
    requires AllNoHook(es) && IsRun(cfg, Init(cfg, clock), es)
    ensures var c := After(cfg, Init(cfg, clock), es);
            c.schedulings >= j ==> c.waited == cfg.initMs * (Pow2(j) - 1) + (c.schedulings - j) * cfg.maxMs
  {
    assert Form(cfg, 0) == cfg.initMs;
    WaitedAlways(cfg, Init(cfg, clock), es);
    var c := After(cfg, Init(cfg, clock), es);
    if c.schedulings >= j {
      OutageSum(cfg, j, c.schedulings);
    }
  }

  /** Time since the first failure: what has been, or will have been, waited, less what was replaced. */
  ghost predicate Elapsed(c: Client) {
    var least := c.since + c.waited - c.replaced;
    && (c.schedulings > 0 ==> if c.timer.Some? then c.timer.value >= least else c.clock >= least)
    && (c.schedulings == 0 ==> c.timer.None? && c.waited == c.replaced == 0)
  }

  lemma ScheduleElapsed(cfg: Config, c: Client, hook: Option<int>)
    requires Elapsed(c)
    ensures Elapsed(Schedule(cfg, c, hook))
  {
  }

  lemma ConnectElapsed(cfg: Config, c: Client, o: Outcome, hook: Option<int>, hook2: Option<int>)
    requires Elapsed(c)
    ensures Elapsed(DoConnect(cfg, c, o, hook, hook2))
  {
    hide Schedule;
    var c1 := Begun(c, o);
    if o == Null {
      ScheduleElapsed(cfg, AfterNull(cfg, c1), hook);
    } else if o == ErrorThenNull {
      LoseElapsed(cfg, c1, false, hook);
      ScheduleElapsed(cfg, AfterNull(cfg, Lose(cfg, c1, false, hook)), hook2);
    }
  }

  lemma LoseElapsed(cfg: Config, c: Client, closed: bool, hook: Option<int>)
    requires Elapsed(c)
    ensures Elapsed(Lose(cfg, c, closed, hook))
  {
    if !c.stopping {
      ScheduleElapsed(cfg, Counted(cfg, Gone(cfg, c, closed)), hook);
      hide Schedule;
    }
  }

  lemma ElapsedStep(cfg: Config, c: Client, e: Event)
    requires Enabled(cfg, c, e) && OneConnection(c) && Elapsed(c)
    ensures Elapsed(Apply(cfg, c, e))
  {
    hide Lose, DoConnect;
    match e
    case Start(o, h, h2) => ConnectElapsed(cfg, c.(begun := true), o, h, h2);
    case TimerFires(o, h, h2) => if !c.stopping { ConnectElapsed(cfg, c.(timer := None), o, h, h2); }
    case Error(h) => LoseElapsed(cfg, c, false, h);
    case Closed(h) => LoseElapsed(cfg, c, true, h);
    case _ =>
  }

  lemma {:induction false} ElapsedAlways(cfg: Config, c: Client, es: seq<Event>)
    requires IsRun(cfg, c, es) && OneConnection(c) && Elapsed(c)
    ensures Elapsed(After(cfg, c, es))
    decreases |es|
  {
    hide Apply, Enabled, OneConnection, Elapsed;
    if es != [] {
      OneConnectionStep(cfg, c, es[0]);
      ElapsedStep(cfg, c, es[0]);
      ElapsedAlways(cfg, Apply(cfg, c, es[0]), es[1..]);
    }
  }

  /**
   In every run of v1, the attempt after n failures since the last reset, n at least j, comes no sooner than
   init (2^j - 1) + (n - j) max milliseconds after the first of these failures, less the waits that were replaced.
   */
  lemma OutageBound(cfg: Config, clock: int, es: seq<Event>, j: nat, o: Outcome)
    requires Sane(cfg) && cfg.variant == V1 && Saturates(cfg, j)
    requires AllNoHook(es) && IsRun(cfg, Init(cfg, clock), es)
    ensures var c := After(cfg, Init(cfg, clock), es);
            Enabled(cfg, c, TimerFires(o, None, None)) && c.schedulings >= j ==>
              c.clock >= c.since + cfg.initMs * (Pow2(j) - 1) + (c.schedulings - j) * cfg.maxMs - c.replaced
  {
    OutageWaits(cfg, clock, es, j);
    OneConnectionAlways(cfg, Init(cfg, clock), es);
    ElapsedAlways(cfg, Init(cfg, clock), es);
  }

  // ---- When nothing is replaced ----

  function CountNulls(os: seq<Outcome>): nat {
    if os == [] then 0 else CountNulls(os[..|os| - 1]) + if os[|os| - 1] == Null then 1 else 0
  }

  ghost predicate ReplacedOk(c: Client) {
    && |c.outcomes| == c.attempts && c.bare == CountNulls(c.outcomes)
    && (ErrorThenNull !in c.outcomes ==> c.replaced == 0)
    && (!c.begun ==> c.outcomes == [])
  }

  lemma ScheduleReplaces(cfg: Config, c: Client, hook: Option<int>)
    ensures var r := Schedule(cfg, c, hook);
            && r.outcomes == c.outcomes && r.attempts == c.attempts && r.bare == c.bare && r.begun == c.begun
            && (c.timer.None? ==> r.replaced == c.replaced)
  {
  }

  lemma LoseReplacesNone(cfg: Config, c: Client, closed: bool, hook: Option<int>)
    ensures var r := Lose(cfg, c, closed, hook);
            && r.outcomes == c.outcomes && r.attempts == c.attempts && r.bare == c.bare && r.begun == c.begun
            && (c.timer.None? ==> r.replaced == c.replaced)
  {
    ScheduleReplaces(cfg, Counted(cfg, Gone(cfg, c, closed)), hook);
    hide Schedule;
  }

  lemma ConnectReplaces(cfg: Config, c: Client, o: Outcome, hook: Option<int>, hook2: Option<int>)
    requires c.timer.None? && ReplacedOk(c) && c.begun
    ensures ReplacedOk(DoConnect(cfg, c, o, hook, hook2))
  {
    var c1 := Begun(c, o);
    var r := DoConnect(cfg, c, o, hook, hook2);
    ScheduleReplaces(cfg, AfterNull(cfg, c1), hook);
    LoseReplacesNone(cfg, c1, false, hook);
    ScheduleReplaces(cfg, AfterNull(cfg, Lose(cfg, c1, false, hook)), hook2);
    hide Schedule, Lose;
    assert r.outcomes == c.outcomes + [o] && r.outcomes[..|c.outcomes|] == c.outcomes;
  }

  lemma ReplacedStep(cfg: Config, c: Client, e: Event)
    requires Enabled(cfg, c, e) && OneConnection(c) && ReplacedOk(c)
    ensures ReplacedOk(Apply(cfg, c, e))
  {
    hide Lose, DoConnect;
    match e
    case Start(o, h, h2) => ConnectReplaces(cfg, c.(begun := true), o, h, h2);
    case TimerFires(o, h, h2) => if !c.stopping { ConnectReplaces(cfg, c.(timer := None), o, h, h2); }
    case Error(h) => LoseReplacesNone(cfg, c, false, h);
    case Closed(h) => LoseReplacesNone(cfg, c, true, h);
    case _ =>
  }

  lemma {:induction false} ReplacedAlways(cfg: Config, c: Client, es: seq<Event>)
    requires IsRun(cfg, c, es) && OneConnection(c) && ReplacedOk(c)
    ensures ReplacedOk(After(cfg, c, es))
    decreases |es|
  {
    hide Apply, Enabled, OneConnection, ReplacedOk;
    if es != [] {
      OneConnectionStep(cfg, c, es[0]);
      ReplacedStep(cfg, c, es[0]);
      ReplacedAlways(cfg, Apply(cfg, c, es[0]), es[1..]);
    }
  }

  // ---- The fastest run with given outcomes ----

  /** Before an attempt in a run that loses no time; a double failure has left its trace in `replaced`. */
  ghost predicate Fast(cfg: Config, c: Client) {
    && OneConnection(c) && DelayForm(cfg, c) && c.waited == SumOfForms(cfg, c.schedulings)
    && c.wsi == 0 && !c.stopping && c.clock == c.since + c.waited - c.replaced
    && Elapsed(c) && c.replaced >= 0 && (ErrorThenNull in c.outcomes ==> c.replaced > 0)
  }

  /** The timer is due at this very millisecond. */
  ghost predicate FastDue(cfg: Config, c: Client) {
    Fast(cfg, c) && c.begun && c.phase == ReconnectWait && c.timer == Some(c.clock)
  }

  lemma NullIsFast(cfg: Config, c: Client) returns (r: Client)
    requires Sane(cfg) && cfg.variant == V1 && Fast(cfg, c) && c.timer.None? && c.begun
    ensures r == DoConnect(cfg, c, Null, None, None) && r.timer.Some? && r.timer.value >= r.clock
    ensures FastDue(cfg, r.(clock := r.timer.value)) && r.outcomes == c.outcomes + [Null]
  {
    r := DoConnect(cfg, c, Null, None, None);
    ScheduleWaits(cfg, AfterNull(cfg, Begun(c, Null)));
    FormNext(cfg, c.schedulings);
  }

  lemma DoubleIsFast(cfg: Config, c: Client) returns (r: Client)
    requires Sane(cfg) && cfg.variant == V1 && Fast(cfg, c) && c.timer.None? && c.begun
    ensures r == DoConnect(cfg, c, ErrorThenNull, None, None) && r.timer.Some? && r.timer.value >= r.clock
    ensures FastDue(cfg, r.(clock := r.timer.value)) && r.outcomes == c.outcomes + [ErrorThenNull]
  {
    r := DoConnect(cfg, c, ErrorThenNull, None, None);
    var c1 := Begun(c, ErrorThenNull).(wsi := 0, live := c.live - {c.wsi});
    ScheduleWaits(cfg, c1);
    var c2 := Schedule(cfg, c1, None);
    ScheduleWaits(cfg, AfterNull(cfg, c2));
    FormNext(cfg, c.schedulings);
    FormNext(cfg, c.schedulings + 1);
    assert SumOfForms(cfg, c.schedulings + 2) == SumOfForms(cfg, c.schedulings + 1) + Form(cfg, c.schedulings + 1);
  }

  lemma HandleIsFast(cfg: Config, c: Client) returns (r: Client)
    requires Sane(cfg) && cfg.variant == V1 && Fast(cfg, c) && c.timer.None? && c.begun
    ensures var h := DoConnect(cfg, c, Handle, None, None);
            Enabled(cfg, h, Error(None)) && r == Apply(cfg, h, Error(None))
    ensures r.timer.Some? && r.timer.value >= r.clock
    ensures FastDue(cfg, r.(clock := r.timer.value)) && r.outcomes == c.outcomes + [Handle]
  {
    var h := DoConnect(cfg, c, Handle, None, None);
    r := Apply(cfg, h, Error(None));
    var h1 := h.(wsi := 0, live := h.live - {h.wsi});
    ScheduleWaits(cfg, h1);
    FormNext(cfg, c.schedulings);
  }

  /** What follows the call of do_connect in the fastest run: the error of a handle, and the time to the deadline. */
  lemma FastAttempt(cfg: Config, c: Client, o: Outcome) returns (tail: seq<Event>)
    requires Sane(cfg) && cfg.variant == V1 && Fast(cfg, c) && c.timer.None? && c.begun
    ensures var h := DoConnect(cfg, c, o, None, None);
            && IsRun(cfg, h, tail) && AllNoHook(tail)
            && FastDue(cfg, After(cfg, h, tail)) && After(cfg, h, tail).outcomes == c.outcomes + [o]
  {
    hide DoConnect, FastDue, Fast;
    var h := DoConnect(cfg, c, o, None, None);
    var r: Client;
    match o {
      case Null => r := NullIsFast(cfg, c);
      case ErrorThenNull => r := DoubleIsFast(cfg, c);
      case Handle => r := HandleIsFast(cfg, c);
    }
    var tick := Event.Tick(r.timer.value);
    assert Apply(cfg, r, tick) == r.(clock := r.timer.value);
    tail := if o == Handle then [Error(None), tick] else [tick];
    OneEvent(cfg, r, tick);
    if o == Handle {
      assert tail[1..] == [tick];
    }
  }

  lemma OneEvent(cfg: Config, c: Client, e: Event)
    requires Enabled(cfg, c, e) && NoHook(e)
    ensures IsRun(cfg, c, [e]) && AllNoHook([e]) && After(cfg, c, [e]) == Apply(cfg, c, e)
  {
    hide Apply, Enabled, NoHook;
    assert [e][1..] == [];
    assert IsRun(cfg, Apply(cfg, c, e), []) && After(cfg, Apply(cfg, c, e), []) == Apply(cfg, c, e);
  }

  lemma {:induction false} RunsOn(cfg: Config, c: Client, xs: seq<Event>, ys: seq<Event>)
    requires IsRun(cfg, c, xs) && IsRun(cfg, After(cfg, c, xs), ys) && AllNoHook(xs) && AllNoHook(ys)
    ensures IsRun(cfg, c, xs + ys) && After(cfg, c, xs + ys) == After(cfg, After(cfg, c, xs), ys) && AllNoHook(xs + ys)
    decreases |xs|
  {
    hide Apply, Enabled, NoHook;
    if xs == [] {
      assert xs + ys == ys;
    } else {
      assert (xs + ys)[0] == xs[0] && (xs + ys)[1..] == xs[1..] + ys;
      RunsOn(cfg, Apply(cfg, c, xs[0]), xs[1..], ys);
    }
  }

  lemma {:induction false} FastOn(cfg: Config, c: Client, os: seq<Outcome>) returns (es: seq<Event>)
    requires Sane(cfg) && cfg.variant == V1 && FastDue(cfg, c)
    ensures IsRun(cfg, c, es) && AllNoHook(es)
    ensures FastDue(cfg, After(cfg, c, es)) && After(cfg, c, es).outcomes == c.outcomes + os
    decreases |os|
  {
    if os == [] {
      es := [];
    } else {
      var e := TimerFires(os[0], None, None);
      var tail := FastAttempt(cfg, c.(timer := None), os[0]);
      OneEvent(cfg, c, e);
      assert Apply(cfg, c, e) == DoConnect(cfg, c.(timer := None), os[0], None, None);
      hide IsRun, AllNoHook, After, FastDue, Fast, Apply, DoConnect;
      RunsOn(cfg, c, [e], tail);
      var r := After(cfg, c, [e] + tail);
      var rest := FastOn(cfg, r, os[1..]);
      RunsOn(cfg, c, [e] + tail, rest);
      es := [e] + tail + rest;
      assert c.outcomes + os == r.outcomes + os[1..];
    }
  }

  lemma FastRun(cfg: Config, clock: int, os: seq<Outcome>) returns (es: seq<Event>)
    requires Sane(cfg) && cfg.variant == V1 && os != []
    ensures IsRun(cfg, Init(cfg, clock), es) && AllNoHook(es)
    ensures var c := After(cfg, Init(cfg, clock), es); FastDue(cfg, c) && c.outcomes == os
  {
    var c := Init(cfg, clock);
    var e := Start(os[0], None, None);
    assert Fast(cfg, c.(begun := true)) by {
      assert Form(cfg, 0) == cfg.initMs;
    }
    var tail := FastAttempt(cfg, c.(begun := true), os[0]);
    OneEvent(cfg, c, e);
    assert Apply(cfg, c, e) == DoConnect(cfg, c.(begun := true), os[0], None, None);
    hide IsRun, AllNoHook, After, FastDue, Fast, Apply, DoConnect, Init;
    RunsOn(cfg, c, [e], tail);
    var rest := FastOn(cfg, After(cfg, c, [e] + tail), os[1..]);
    RunsOn(cfg, c, [e] + tail, rest);
    es := [e] + tail + rest;
    assert os == [os[0]] + os[1..];
  }

  /** A run of v1 without a hook in which the connects since the last reset went as os tells and the next one is due. */
  ghost predicate OutageOf(cfg: Config, clock: int, os: seq<Outcome>, es: seq<Event>) {
    && AllNoHook(es) && IsRun(cfg, Init(cfg, clock), es)
    && var c := After(cfg, Init(cfg, clock), es);
       c.outcomes == os && Enabled(cfg, c, TimerFires(Null, None, None))
  }

  ghost predicate WaitsInFull(cfg: Config, clock: int, es: seq<Event>) {
    var c := After(cfg, Init(cfg, clock), es);
    c.clock >= c.since + SumOfForms(cfg, c.schedulings)
  }

  /** The outcomes since the last reset are those of the attempts counted, and the bare NULL returns are among them. */
  lemma OutcomesAreAttempts(cfg: Config, clock: int, es: seq<Event>)
    requires IsRun(cfg, Init(cfg, clock), es)
    ensures var c := After(cfg, Init(cfg, clock), es); |c.outcomes| == c.attempts && CountNulls(c.outcomes) == c.bare
  {
    ReplacedAlways(cfg, Init(cfg, clock), es);
  }

  /**
   The sum of all waits is waited in full, exactly: in every run whose connects went like os since the last reset,
   if and only if none of them reported an error and then returned NULL, so that its second deadline replaced the first.
   */
  lemma OutageBoundIff(cfg: Config, clock: int, os: seq<Outcome>)
    requires Sane(cfg) && cfg.variant == V1
    ensures (forall es :: OutageOf(cfg, clock, os, es) ==> WaitsInFull(cfg, clock, es)) <==> ErrorThenNull !in os
  {
    if ErrorThenNull in os {
      var es := FastRun(cfg, clock, os);
      hide IsRun, After;
      assert OutageOf(cfg, clock, os, es) && !WaitsInFull(cfg, clock, es);
    } else {
      forall es | OutageOf(cfg, clock, os, es)
        ensures WaitsInFull(cfg, clock, es)
      {
        OneConnectionAlways(cfg, Init(cfg, clock), es);
        ElapsedAlways(cfg, Init(cfg, clock), es);
        ReplacedAlways(cfg, Init(cfg, clock), es);
        assert Form(cfg, 0) == cfg.initMs;
        WaitedAlways(cfg, Init(cfg, clock), es);
      }
    }
  }

  // ---- The wait that a hook asks for ----

  /** The event schedules, and ret is the last answer of the hook. */
  predicate Answers(e: Event, ret: int) {
    match e
    case Start(o, h, h2) => (o == Null && h == Some(ret)) || (o == ErrorThenNull && h2 == Some(ret))
    case TimerFires(o, h, h2) => (o == Null && h == Some(ret)) || (o == ErrorThenNull && h2 == Some(ret))
    case Error(h) => h == Some(ret)
    case Closed(h) => h == Some(ret)
    case _ => false
  }

  /** From c on, the client r waits ret milliseconds. */
  predicate WaitsFor(c: Client, r: Client, ret: int) {
    && r.phase == ReconnectWait && r.timer == Some(c.clock + ret) && r.delay == ret
    && !r.stopping && r.clock == c.clock
  }

  lemma ScheduleAnswered(cfg: Config, c: Client, ret: int)
    requires cfg.variant != V1 && !c.stopping && ret >= 0
    ensures var r := Schedule(cfg, c, Some(ret));
            WaitsFor(c, r, ret)
  {
  }

  lemma LoseAnswered(cfg: Config, c: Client, closed: bool, ret: int)
    requires cfg.variant != V1 && !c.stopping && ret >= 0
    ensures var r := Lose(cfg, c, closed, Some(ret));
            WaitsFor(c, r, ret)
  {
    ScheduleAnswered(cfg, Counted(cfg, Gone(cfg, c, closed)), ret);
    hide Schedule;
  }

  lemma ScheduleKeepsClock(cfg: Config, c: Client, hook: Option<int>)
    ensures Schedule(cfg, c, hook).clock == c.clock && Schedule(cfg, c, hook).stopping == c.stopping
  {
  }

  lemma ConnectAnswered(cfg: Config, c: Client, o: Outcome, h: Option<int>, h2: Option<int>, ret: int)
    requires cfg.variant != V1 && !c.stopping && ret >= 0
    requires (o == Null && h == Some(ret)) || (o == ErrorThenNull && h2 == Some(ret))
    ensures var r := DoConnect(cfg, c, o, h, h2);
            WaitsFor(c, r, ret)
  {
    var c1 := Begun(c, o);
    if o == Null {
      ScheduleAnswered(cfg, AfterNull(cfg, c1), ret);
    } else {
      ScheduleKeepsClock(cfg, Counted(cfg, Gone(cfg, c1, false)), h);
      ScheduleAnswered(cfg, AfterNull(cfg, Lose(cfg, c1, false, h)), ret);
    }
    hide Schedule;
  }

  lemma EventAnswered(cfg: Config, c: Client, e: Event, ret: int)
    requires cfg.variant != V1 && !c.stopping && Enabled(cfg, c, e) && Answers(e, ret) && ret >= 0
    ensures var r := Apply(cfg, c, e);
            WaitsFor(c, r, ret)
  {
    hide DoConnect, Lose;
    match e
    case Start(o, h, h2) => ConnectAnswered(cfg, c.(begun := true), o, h, h2, ret);
    case TimerFires(o, h, h2) => ConnectAnswered(cfg, c.(timer := None), o, h, h2, ret);
    case Error(_) => LoseAnswered(cfg, c, false, ret);
    case Closed(_) => LoseAnswered(cfg, c, true, ret);
  }

  /**
   v2 and the pool wait what the hook asks for: after a scheduling that it has answered with ret, the next attempt can
   be made from ret milliseconds later on, and not before.
   */
  lemma HookWaitIff(cfg: Config, c: Client, e: Event, ret: int, to: int, o: Outcome, h: Option<int>, h2: Option<int>)
    requires cfg.variant != V1 && !c.stopping && Enabled(cfg, c, e) && Answers(e, ret) && ret >= 0 && to >= c.clock
    ensures var c1 := Apply(cfg, c, e);
            && Enabled(cfg, c1, Event.Tick(to))
            && (Enabled(cfg, Apply(cfg, c1, Event.Tick(to)), TimerFires(o, h, h2)) <==> to >= c.clock + ret)
            && c1.phase == ReconnectWait
  {
    EventAnswered(cfg, c, e, ret);
    hide DoConnect, Lose;
  }

  /** And the backoff goes on from there: the next scheduling without a hook doubles ret, up to maxMs. */
  lemma BackoffAfterHook(cfg: Config, c: Client, e: Event, ret: int)
    requires Sane(cfg) && cfg.variant != V1 && !c.stopping && Enabled(cfg, c, e) && Answers(e, ret) && 0 < ret < BOUND
    ensures var c1 := Apply(cfg, c, e);
            Schedule(cfg, c1, None).timer == Some(c1.clock + Min(2 * ret, cfg.maxMs))
  {
    EventAnswered(cfg, c, e, ret);
    hide Apply, Enabled, Answers;
    assert Twice(ret) == 2 * ret;
  }

  /** A hook that refuses leaves the client STOPPED, and arms no timer. */
  lemma RefusedIsStopped(cfg: Config, c: Client, hook: Option<int>)
    requires cfg.variant != V1 && !c.stopping && hook.Some? && hook.value < 0
    ensures Schedule(cfg, c, hook) == c.(phase := Stopped)
  {
  }

  // ---- The circuit breaker ----

  /** A hook that refuses from m failures on, and leaves any wait it likes before that. */
  predicate Answer(m: nat, fails: int, hook: Option<int>) {
    hook.Some? && (hook.value < 0 <==> fails >= m)
  }

  predicate Breaker(m: nat, c: Client, e: Event) {
    match e
    case Start(o, h, h2) => o == Handle || (Answer(m, FailsAt(c, o), h) && Answer(m, FailsAt(c, o), h2))
    case TimerFires(o, h, h2) => o == Handle || (Answer(m, FailsAt(c, o), h) && Answer(m, FailsAt(c, o), h2))
    case Error(h) => Answer(m, c.fails + 1, h)
    case Closed(h) => Answer(m, c.fails + 1, h)
    case _ => true
  }

  /** The failure count that the hook is shown; a NULL without an error is not counted. */
  function FailsAt(c: Client, o: Outcome): int {
    if o == ErrorThenNull && !c.stopping then c.fails + 1 else c.fails
  }

  predicate BreakerRun(cfg: Config, m: nat, c: Client, es: seq<Event>)
    decreases |es|
  {
    es == [] || (Breaker(m, c, es[0]) && BreakerRun(cfg, m, Apply(cfg, c, es[0]), es[1..]))
  }

  /** Each attempt has been followed by a counted failure, but the last one and those that returned a bare NULL. */
  ghost predicate BreakerInv(m: nat, c: Client) {
    var used := c.attempts + if c.established then 1 else 0;
    && 0 <= c.fails && used <= c.fails + 1 + c.bare && used <= m + c.bare
    && (c.timer.Some? && !c.stopping ==> used <= c.fails + c.bare && c.fails < m)
    && (c.phase == Stopped ==> c.timer.None? && c.wsi == 0)
    && (!c.begun ==>
          c.phase == Idle && c.attempts == 0 && c.bare == 0 && c.fails == 0 && !c.established && c.timer.None?)
  }

  lemma LoseBreaks(cfg: Config, m: nat, c: Client, closed: bool, hook: Option<int>)
    requires cfg.variant != V1 && BreakerInv(m, c) && c.timer.None? && c.begun && c.phase != Stopped
    requires Answer(m, c.fails + 1, hook)
    ensures BreakerInv(m, Lose(cfg, c, closed, hook))
  {
  }

  /** What a scheduling leaves of the breaker's account. */
  lemma ScheduleCounts(cfg: Config, c: Client, hook: Option<int>)
    requires cfg.variant != V1
    ensures var r := Schedule(cfg, c, hook);
            && r.attempts == c.attempts && r.bare == c.bare && r.fails == c.fails && r.wsi == c.wsi
            && r.established == c.established && r.begun == c.begun && r.stopping == c.stopping
            && (if cfg.variant == Pool && c.stopping then r == c
                else if hook.Some? && hook.value < 0 then r == c.(phase := Stopped)
                else r.phase == ReconnectWait && r.timer.Some?)
  {
  }

  /** An attempt that begins, at the start or while the breaker lets it through. */
  lemma ConnectBreaks(cfg: Config, m: nat, c: Client, o: Outcome, hook: Option<int>, hook2: Option<int>)
    requires cfg.variant != V1 && m >= 1 && BreakerInv(m, c) && c.begun && c.phase != Stopped && c.timer.None?
    requires c.wsi == 0
    requires c.attempts + (if c.established then 1 else 0) <= c.fails + c.bare && c.fails < m
    requires o == Handle || (Answer(m, FailsAt(c, o), hook) && Answer(m, FailsAt(c, o), hook2))
    ensures BreakerInv(m, DoConnect(cfg, c, o, hook, hook2))
  {
    var c1 := Begun(c, o);
    match o
    case Handle =>
    case Null =>
      ScheduleCounts(cfg, AfterNull(cfg, c1), hook);
      hide Schedule;
    case ErrorThenNull =>
      ScheduleCounts(cfg, Counted(cfg, Gone(cfg, c1, false)), hook);
      ScheduleCounts(cfg, AfterNull(cfg, Lose(cfg, c1, false, hook)), hook2);
      hide Schedule;
  }

  lemma BreakerStep(cfg: Config, m: nat, c: Client, e: Event)
    requires cfg.variant != V1 && m >= 1 && OneConnection(c) && BreakerInv(m, c)
    requires Enabled(cfg, c, e) && Breaker(m, c, e)
    ensures BreakerInv(m, Apply(cfg, c, e))
    ensures c.phase == Stopped ==> Apply(cfg, c, e).phase == Stopped && Apply(cfg, c, e).attempts == c.attempts
  {
    hide DoConnect, Lose, Schedule, Answer;
    match e
    case Start(o, h, h2) => ConnectBreaks(cfg, m, c.(begun := true), o, h, h2);
    case TimerFires(o, h, h2) => if !c.stopping { ConnectBreaks(cfg, m, c.(timer := None), o, h, h2); }
    case Error(h) => LoseBreaks(cfg, m, c, false, h);
    case Closed(h) => LoseBreaks(cfg, m, c, true, h);
    case _ =>
  }

  lemma {:induction false} BreakerAlways(cfg: Config, m: nat, c: Client, es: seq<Event>)
    requires cfg.variant != V1 && m >= 1 && OneConnection(c) && BreakerInv(m, c)
    requires IsRun(cfg, c, es) && BreakerRun(cfg, m, c, es)
    ensures BreakerInv(m, After(cfg, c, es))
    ensures c.phase == Stopped ==> After(cfg, c, es).phase == Stopped && After(cfg, c, es).attempts == c.attempts
    decreases |es|
  {
    hide Apply, Enabled, Breaker, BreakerInv, OneConnection;
    if es != [] {
      OneConnectionStep(cfg, c, es[0]);
      BreakerStep(cfg, m, c, es[0]);
      BreakerAlways(cfg, m, Apply(cfg, c, es[0]), es[1..]);
    }
  }

  /**
   With a hook that refuses from m failures on, at most m attempts begin from the start and at most m - 1 after each
   ESTABLISHED, not counting those that return NULL and report no error; a client that is STOPPED after the
   events es stays STOPPED, without a further attempt, whatever events follow.
   */
  lemma CircuitBreaker(cfg: Config, m: nat, clock: int, es: seq<Event>, more: seq<Event>)
    requires cfg.variant != V1 && m >= 1 && IsRun(cfg, Init(cfg, clock), es)
    requires BreakerRun(cfg, m, Init(cfg, clock), es)
    ensures var c := After(cfg, Init(cfg, clock), es);
            && c.attempts + (if c.established then 1 else 0) <= m + c.bare
            && (c.phase == Stopped && IsRun(cfg, c, more) && BreakerRun(cfg, m, c, more) ==>
                  After(cfg, c, more).phase == Stopped && After(cfg, c, more).attempts == c.attempts)
  {
    BreakerAlways(cfg, m, Init(cfg, clock), es);
    OneConnectionAlways(cfg, Init(cfg, clock), es);
    var c := After(cfg, Init(cfg, clock), es);
    if IsRun(cfg, c, more) && BreakerRun(cfg, m, c, more) {
      BreakerAlways(cfg, m, c, more);
    }
  }

  // ---- STOPPED, with any hook ----

  ghost predicate StoppedInv(c: Client) {
    (c.phase == Stopped ==> c.begun && c.wsi == 0) && (c.wsi != 0 ==> c.begun)
  }

  lemma ScheduleWithoutWsi(cfg: Config, c: Client, hook: Option<int>)
    ensures Schedule(cfg, c, hook).wsi == c.wsi && Schedule(cfg, c, hook).begun == c.begun
  {
  }

  lemma LoseStops(cfg: Config, c: Client, closed: bool, hook: Option<int>)
    requires c.begun
    ensures Lose(cfg, c, closed, hook).wsi == 0 && Lose(cfg, c, closed, hook).begun
  {
    ScheduleWithoutWsi(cfg, Counted(cfg, Gone(cfg, c, closed)), hook);
    hide Schedule;
  }

  lemma ConnectStops(cfg: Config, c: Client, o: Outcome, hook: Option<int>, hook2: Option<int>)
    requires c.begun && c.wsi == 0
    ensures StoppedInv(DoConnect(cfg, c, o, hook, hook2))
  {
    var c1 := Begun(c, o);
    LoseStops(cfg, c1, false, hook);
    ScheduleWithoutWsi(cfg, AfterNull(cfg, c1), hook);
    ScheduleWithoutWsi(cfg, AfterNull(cfg, Lose(cfg, c1, false, hook)), hook2);
    hide Lose, Schedule;
  }

  lemma StoppedStep(cfg: Config, c: Client, e: Event)
    requires cfg.variant != V1 && OneConnection(c) && StoppedInv(c) && Enabled(cfg, c, e)
    ensures StoppedInv(Apply(cfg, c, e))
    ensures c.phase == Stopped && (c.timer.None? || c.stopping) ==>
              var r := Apply(cfg, c, e); r.phase == Stopped && (r.timer.None? || r.stopping) && r.attempts == c.attempts
  {
    hide DoConnect, Lose;
    match e
    case Start(o, h, h2) => ConnectStops(cfg, c.(begun := true), o, h, h2);
    case TimerFires(o, h, h2) => if !c.stopping { ConnectStops(cfg, c.(timer := None), o, h, h2); }
    case Error(h) => LoseStops(cfg, c, false, h);
    case Closed(h) => LoseStops(cfg, c, true, h);
    case _ =>
  }

  lemma {:induction false} StoppedAlways(cfg: Config, c: Client, es: seq<Event>)
    requires cfg.variant != V1 && OneConnection(c) && StoppedInv(c) && IsRun(cfg, c, es)
    ensures StoppedInv(After(cfg, c, es))
    ensures c.phase == Stopped && (c.timer.None? || c.stopping) ==>
              After(cfg, c, es).phase == Stopped && After(cfg, c, es).attempts == c.attempts
    decreases |es|
  {
    hide Apply, Enabled, OneConnection, StoppedInv;
    if es != [] {
      OneConnectionStep(cfg, c, es[0]);
      StoppedStep(cfg, c, es[0]);
      StoppedAlways(cfg, Apply(cfg, c, es[0]), es[1..]);
    }
  }

  ghost predicate LeavesStopped(cfg: Config, c: Client, more: seq<Event>) {
    IsRun(cfg, c, more) && After(cfg, c, more).phase != Stopped
  }

  /** With any hook, a client that is STOPPED can leave it if and only if its timer is armed and it is not stopping. */
  lemma StoppedIsLeftIff(cfg: Config, clock: int, es: seq<Event>)
    requires cfg.variant != V1 && IsRun(cfg, Init(cfg, clock), es) && After(cfg, Init(cfg, clock), es).phase == Stopped
    ensures var c := After(cfg, Init(cfg, clock), es);
            (exists more :: LeavesStopped(cfg, c, more)) <==> c.timer.Some? && !c.stopping
  {
    var c := After(cfg, Init(cfg, clock), es);
    OneConnectionAlways(cfg, Init(cfg, clock), es);
    StoppedAlways(cfg, Init(cfg, clock), es);
    if c.timer.Some? && !c.stopping {
      var tick := Event.Tick(Max(c.clock, c.timer.value));
      var fires := TimerFires(Handle, None, None);
      var more := [tick, fires];
      assert more[1..] == [fires] && more[1..][1..] == [];
      var c1 := Apply(cfg, c, tick);
      var c2 := Apply(cfg, c1, fires);
      assert IsRun(cfg, c2, []) && After(cfg, c2, []) == c2;
      assert IsRun(cfg, c1, [fires]) && After(cfg, c1, [fires]) == c2;
      assert LeavesStopped(cfg, c, more);
    }
    forall more | LeavesStopped(cfg, c, more)
      ensures c.timer.Some? && !c.stopping
    {
      StoppedAlways(cfg, c, more);
    }
  }

  /** A hook that accepts the first and refuses the second failure of one attempt brings a client there. */
  lemma StoppedWithTimer(cfg: Config, clock: int)
    requires cfg.variant != V1
    ensures var e := Start(ErrorThenNull, Some(0), Some(-1)); var c := Apply(cfg, Init(cfg, clock), e);
            Enabled(cfg, Init(cfg, clock), e) && c.phase == Stopped && c.timer.Some? && !c.stopping
  {
  }

  // ---- The bound is reached ----

  /** A client whose timer is due while the breaker still lets an attempt through. */
  predicate Due(m: nat, c: Client) {
    c.timer.Some? && c.clock >= c.timer.value && !c.stopping && 0 <= c.fails < m
  }

  lemma {:induction false} RunAppend(cfg: Config, c: Client, xs: seq<Event>, ys: seq<Event>, m: nat)
    requires IsRun(cfg, c, xs) && BreakerRun(cfg, m, c, xs)
    requires IsRun(cfg, After(cfg, c, xs), ys) && BreakerRun(cfg, m, After(cfg, c, xs), ys)
    ensures IsRun(cfg, c, xs + ys) && BreakerRun(cfg, m, c, xs + ys)
    ensures After(cfg, c, xs + ys) == After(cfg, After(cfg, c, xs), ys)
    decreases |xs|
  {
    hide Apply, Enabled, Breaker;
    if xs == [] {
      assert xs + ys == ys;
    } else {
      assert (xs + ys)[0] == xs[0] && (xs + ys)[1..] == xs[1..] + ys;
      RunAppend(cfg, Apply(cfg, c, xs[0]), xs[1..], ys, m);
    }
  }

  /** b attempts that return a bare NULL leave everything due as it was. */
  lemma {:induction false} NullForever(cfg: Config, m: nat, c: Client, b: nat) returns (es: seq<Event>)
    requires cfg.variant != V1 && Due(m, c)
    ensures IsRun(cfg, c, es) && BreakerRun(cfg, m, c, es)
    ensures var r := After(cfg, c, es);
            && Due(m, r) && r.fails == c.fails && r.established == c.established
            && r.attempts == c.attempts + b && r.bare == c.bare + b
    decreases b
  {
    if b == 0 {
      es := [];
    } else {
      var e := TimerFires(Null, Some(0), Some(0));
      var rest := NullForever(cfg, m, Apply(cfg, c, e), b - 1);
      es := [e] + rest;
      assert es[1..] == rest;
    }
  }

  /** What the hook answers after the failure that brings the count to fails. */
  function AnswerAt(m: nat, fails: int): Option<int> {
    Some(if fails >= m then -1 else 0)
  }

  lemma FailsOnce(cfg: Config, m: nat, c: Client) returns (e: Event)
    requires cfg.variant != V1 && Due(m, c)
    ensures Enabled(cfg, c, e) && Breaker(m, c, e)
    ensures var r := Apply(cfg, c, e);
            && r.fails == c.fails + 1 && r.attempts == c.attempts + 1 && r.bare == c.bare
            && r.established == c.established && if r.fails < m then Due(m, r) else r.phase == Stopped
  {
    var answer := AnswerAt(m, c.fails + 1);
    e := TimerFires(ErrorThenNull, answer, answer);
  }

  /** Then as many attempts fail, and are counted, as the breaker has left. */
  lemma {:induction false} FailsToTheEnd(cfg: Config, m: nat, c: Client) returns (es: seq<Event>)
    requires cfg.variant != V1 && Due(m, c)
    ensures IsRun(cfg, c, es) && BreakerRun(cfg, m, c, es)
    ensures var r := After(cfg, c, es);
            && r.phase == Stopped && r.attempts == c.attempts + (m - c.fails) && r.bare == c.bare
            && r.established == c.established
    decreases m - c.fails
  {
    hide Apply, Enabled, Breaker;
    var e := FailsOnce(cfg, m, c);
    var r := Apply(cfg, c, e);
    var rest: seq<Event> := [];
    if r.fails < m {
      rest := FailsToTheEnd(cfg, m, r);
    }
    es := [e] + rest;
    assert es[1..] == rest;
  }

  /** From there on, b more bare NULLs and all the failures that the breaker lets through. */
  lemma UsesUp(cfg: Config, m: nat, c: Client, b: nat) returns (es: seq<Event>)
    requires cfg.variant != V1 && Due(m, c)
    ensures IsRun(cfg, c, es) && BreakerRun(cfg, m, c, es)
    ensures var r := After(cfg, c, es);
            && r.phase == Stopped && r.established == c.established
            && r.attempts == c.attempts + b + (m - c.fails) && r.bare == c.bare + b
  {
    hide IsRun, BreakerRun, After, Apply;
    var nulls := NullForever(cfg, m, c, b);
    var fails := FailsToTheEnd(cfg, m, After(cfg, c, nulls));
    RunAppend(cfg, c, nulls, fails, m);
    es := nulls + fails;
  }

  /** The bound is exact: for each number b of bare NULL returns some run makes m + b attempts from the start. */
  lemma BreakerBoundReached(cfg: Config, m: nat, b: nat, clock: int) returns (es: seq<Event>)
    requires cfg.variant != V1 && m >= 1
    ensures IsRun(cfg, Init(cfg, clock), es) && BreakerRun(cfg, m, Init(cfg, clock), es)
    ensures var c := After(cfg, Init(cfg, clock), es); !c.established && c.bare == b && c.attempts == m + b
  {
    var first := if b == 0 then Start(ErrorThenNull, AnswerAt(m, 1), AnswerAt(m, 1)) else Start(Null, Some(0), Some(0));
    var c := Apply(cfg, Init(cfg, clock), first);
    assert c.attempts == 1 && (if b == 0 then c.fails == 1 && c.bare == 0 else c.fails == 0 && c.bare == 1);
    assert c.fails < m ==> Due(m, c);
    var rest: seq<Event> := [];
    if c.fails < m {
      rest := UsesUp(cfg, m, c, if b == 0 then 0 else b - 1);
    }
    es := [first] + rest;
    assert es[1..] == rest;
  }

  /**
   After every ESTABLISHED anew: from any reachable state in which one can come, if m > 1, whatever failed before it,
   some run makes m - 1 + b attempts after it.
   */
  lemma BreakerBoundReachedAgain(cfg: Config, m: nat, b: nat, clock: int, es: seq<Event>) returns (more: seq<Event>)
    requires cfg.variant != V1 && m > 1 && IsRun(cfg, Init(cfg, clock), es)
    requires var c := After(cfg, Init(cfg, clock), es); !c.stopping && Enabled(cfg, c, Established)
    ensures var c := After(cfg, Init(cfg, clock), es);
            && IsRun(cfg, c, [Established] + more) && BreakerRun(cfg, m, c, [Established] + more)
            && var r := After(cfg, c, [Established] + more); r.established && r.bare == b && r.attempts == m - 1 + b
  {
    var c := After(cfg, Init(cfg, clock), es);
    var c1 := Apply(cfg, c, Established);
    var closed := Closed(Some(0));
    var c2 := Apply(cfg, c1, closed);
    assert c2.established && c2.fails == 1 && c2.attempts == c2.bare == 0 && Due(m, c2);
    var rest := UsesUp(cfg, m, c2, b);
    more := [closed] + rest;
    assert more[0] == closed && more[1..] == rest;
    assert ([Established] + more)[1..] == more;
  }
}
