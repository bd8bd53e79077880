/**
 The reconnect code of the three engines as they have it, field by field, each step
 proved to be the step of the same name in module Lifecycle.
 */
module Engines {
  import opened Common
  import opened Lifecycle

  /** C's division and remainder, which truncate toward zero. */
  function CDiv(a: int, b: int): int
    requires b > 0
  {
    if a >= 0 then a / b else -((-a) / b)
  }

  function CMod(a: int, b: int): int
    requires b > 0
  {
    a - CDiv(a, b) * b
  }

  /** The millisecond that v1's service loop reads back from reconnect_at. */
  function Recomposed(sec: int, nsec: int): int {
    sec * 1000 + CDiv(nsec, 1000000)
  }

  /** Splitting a millisecond into seconds and nanoseconds loses nothing. */
  lemma SplitRecomposes(at: int)
    ensures Recomposed(CDiv(at, 1000), CMod(at, 1000) * 1000000) == at
  {
    var r := CMod(at, 1000);
    assert CDiv(r * 1000000, 1000000) == r by {
      if r >= 0 {
        assert r * 1000000 / 1000000 == r;
      } else {
        assert (-r) * 1000000 / 1000000 == -r;
      }
    }
  }

  /** The reconnect part of struct wsld_client. */
  class ClientV1 {
    const cfg: Config
    var phase: Phase
    var wsi: nat
    var delay: int
    var atSec: int
    var atNsec: int
    var stopping: bool
    ghost var abs: Client

    ghost predicate Valid()
      reads this
    {
      && cfg.variant == V1
      && phase == abs.phase && wsi == abs.wsi && delay == abs.delay && stopping == abs.stopping
      && (phase == ReconnectWait <==> abs.timer.Some?)
      && (phase == ReconnectWait ==> Recomposed(atSec, atNsec) == abs.timer.value)
    }

    constructor (initMs: int, maxMs: int, ghost clock: int)
      ensures Valid() && cfg == Config(V1, initMs, maxMs) && abs == Init(cfg, clock)
    {
      cfg := Config(V1, initMs, maxMs);
      phase, wsi, delay, atSec, atNsec, stopping := Idle, 0, initMs, 0, 0, false;
      abs := Init(Config(V1, initMs, maxMs), clock);
    }

    method ScheduleReconnect(now: int)
      requires cfg.variant == V1 && now == abs.clock
      requires wsi == abs.wsi && delay == abs.delay && stopping == abs.stopping
      modifies this
      ensures Valid() && abs == Schedule(cfg, old(abs), None)
    {
      var at := now + delay;
      atSec := CDiv(at, 1000);
      atNsec := CMod(at, 1000) * 1000000;
      SplitRecomposes(at);
      delay := Twice(delay);
      if delay > cfg.maxMs {
        delay := cfg.maxMs;
      }
      phase := ReconnectWait;
      abs := Schedule(cfg, abs, None);
    }

    /** CLIENT_CONNECTION_ERROR and CLIENT_CLOSED, which do the same. */
    method OnLost(now: int, ghost closed: bool)
      requires Valid() && now == abs.clock && phase != ReconnectWait
      modifies this
      ensures Valid() && abs == Lose(cfg, old(abs), closed, None)
    {
      wsi := 0;
      abs := abs.(wsi := 0, live := abs.live - {abs.wsi});
      if !stopping {
        ScheduleReconnect(now);
      }
    }

    /** `handle` is the handle lws makes for the connection, should it return one. */
    method DoConnect(now: int, o: Outcome, handle: nat)
      requires cfg.variant == V1 && now == abs.clock && 0 < handle == abs.nextId && abs.timer.None?
      requires wsi == abs.wsi && delay == abs.delay && stopping == abs.stopping
      modifies this
      ensures Valid() && abs == Lifecycle.DoConnect(cfg, old(abs), o, None, None)
    {
      phase := Connecting;
      abs := Begun(abs, o);
      if o == ErrorThenNull {
        OnLost(now, false);
      }
      wsi := if o == Handle then handle else 0;
      abs := if o == Handle then abs.(wsi := handle, live := abs.live + {handle}, nextId := handle + 1)
             else AfterNull(cfg, abs);
      if wsi == 0 {
        ScheduleReconnect(now);
      }
    }

    method OnEstablished()
      requires Valid() && Enabled(cfg, abs, Established)
      modifies this
      ensures Valid() && abs == Apply(cfg, old(abs), Established)
    {
      phase := Connected;
      delay := cfg.initMs;
      abs := Establish(cfg, abs);
    }

    /** The service loop's look at the clock; `due` is whether it came to an attempt. */
    method ServiceTurn(now: int, o: Outcome, handle: nat) returns (due: bool)
      requires Valid() && !stopping && now == abs.clock && 0 < handle == abs.nextId
      modifies this
      ensures Valid() && due == Enabled(cfg, old(abs), TimerFires(o, None, None))
      ensures abs == if due then Apply(cfg, old(abs), TimerFires(o, None, None)) else old(abs)
    {
      due := false;
      if phase == ReconnectWait {
        var at := Recomposed(atSec, atNsec);
        if now >= at {
          due := true;
          abs := abs.(timer := None);
          DoConnect(now, o, handle);
        }
      }
    }
  }

  /** The reconnect part of struct wsl_client; `hook` answers for on_reconnect_decision where there is one. */
  class ClientV2 {
    const cfg: Config
    var phase: Phase
    var wsi: nat
    var delay: int
    var fails: int
    var stopping: bool
    var sul: Option<int>  // when the lws timer is due
    ghost var abs: Client

    ghost predicate Valid()
      reads this
    {
      && cfg.variant == V2
      && phase == abs.phase && wsi == abs.wsi && delay == abs.delay && fails == abs.fails
      && stopping == abs.stopping && sul == abs.timer
    }

    constructor (initMs: int, maxMs: int, ghost clock: int)
      ensures Valid() && cfg == Config(V2, initMs, maxMs) && abs == Init(cfg, clock)
    {
      cfg := Config(V2, initMs, maxMs);
      phase, wsi, delay, fails, stopping, sul := Idle, 0, 0, 0, false, None;
      abs := Init(Config(V2, initMs, maxMs), clock);
    }

    method ScheduleReconnect(now: int, hook: Option<int>)
      requires Valid() && now == abs.clock
      modifies this
      ensures Valid() && abs == Schedule(cfg, old(abs), hook)
    {
      var d := delay;
      if d == 0 {
        d := cfg.initMs;
      } else {
        d := Twice(d);
        if d > cfg.maxMs {
          d := cfg.maxMs;
        }
      }
      abs := Schedule(cfg, abs, hook);
      if hook.Some? {
        if hook.value < 0 {
          phase := Stopped;
          return;
        }
        d := hook.value;
      }
      delay := d;
      phase := ReconnectWait;
      sul := Some(now + d);
    }

    method OnLost(now: int, ghost closed: bool, hook: Option<int>)
      requires Valid() && now == abs.clock
      modifies this
      ensures Valid() && abs == Lose(cfg, old(abs), closed, hook)
    {
      wsi := 0;
      phase := ReconnectWait;
      abs := abs.(wsi := 0, live := abs.live - {abs.wsi}, phase := ReconnectWait);
      if !stopping {
        fails := fails + 1;
        abs := abs.(fails := abs.fails + 1);
        ScheduleReconnect(now, hook);
      }
    }

    method DoConnect(now: int, o: Outcome, handle: nat, hook: Option<int>, hook2: Option<int>)
      requires Valid() && now == abs.clock && 0 < handle == abs.nextId
      modifies this
      ensures Valid() && abs == Lifecycle.DoConnect(cfg, old(abs), o, hook, hook2)
    {
      phase := Connecting;
      abs := Begun(abs, o);
      if o == ErrorThenNull {
        OnLost(now, false, hook);
      }
      if o == Handle {
        wsi := handle;  // lws stores it through info.pwsi
        abs := abs.(wsi := handle, live := abs.live + {handle}, nextId := handle + 1);
      } else {
        wsi := 0;
        phase := ReconnectWait;
        abs := AfterNull(cfg, abs);
        ScheduleReconnect(now, if o == Null then hook else hook2);
      }
    }

    method OnEstablished()
      requires Valid() && Enabled(cfg, abs, Established)
      modifies this
      ensures Valid() && abs == Apply(cfg, old(abs), Established)
    {
      phase := Connected;
      delay := cfg.initMs;
      fails := 0;
      abs := Establish(cfg, abs);
    }

    method SulReconnect(now: int, o: Outcome, handle: nat, hook: Option<int>, hook2: Option<int>)
      requires Valid() && now == abs.clock && 0 < handle == abs.nextId && Enabled(cfg, abs, TimerFires(o, hook, hook2))
      modifies this
      ensures Valid() && abs == Apply(cfg, old(abs), TimerFires(o, hook, hook2))
    {
      sul := None;
      abs := abs.(timer := None);
      if stopping {
        return;
      }
      DoConnect(now, o, handle, hook, hook2);
    }
  }

  /** The reconnect part of struct wsp_client. */
  class ClientPool {
    const cfg: Config
    var phase: Phase
    var wsi: nat
    var delay: int
    var fails: int
    var stopping: bool
    var sul: Option<int>
    ghost var abs: Client

    ghost predicate Valid()
      reads this
    {
      && cfg.variant == Pool
      && phase == abs.phase && wsi == abs.wsi && delay == abs.delay && fails == abs.fails
      && stopping == abs.stopping && sul == abs.timer
    }

    constructor (initMs: int, maxMs: int, ghost clock: int)
      ensures Valid() && cfg == Config(Pool, initMs, maxMs) && abs == Init(cfg, clock)
    {
      cfg := Config(Pool, initMs, maxMs);
      phase, wsi, delay, fails, stopping, sul := Idle, 0, initMs, 0, false, None;
      abs := Init(Config(Pool, initMs, maxMs), clock);
    }

    method ScheduleReconnect(now: int, hook: Option<int>)
      requires Valid() && now == abs.clock
      modifies this
      ensures Valid() && abs == Schedule(cfg, old(abs), hook)
    {
      if stopping {
        return;
      }
      var d := Twice(delay);
      if d > cfg.maxMs {
        d := cfg.maxMs;
      }
      abs := Schedule(cfg, abs, hook);
      if hook.Some? {
        if hook.value < 0 {
          phase := Stopped;
          return;
        }
        d := hook.value;
      }
      delay := d;
      phase := ReconnectWait;
      sul := Some(now + d);
    }

    method OnConnectionError(now: int, hook: Option<int>)
      requires Valid() && now == abs.clock
      modifies this
      ensures Valid() && abs == Lose(cfg, old(abs), false, hook)
    {
      wsi := 0;
      abs := abs.(wsi := 0, live := abs.live - {abs.wsi});
      if !stopping {
        fails := fails + 1;
        abs := abs.(fails := abs.fails + 1);
        ScheduleReconnect(now, hook);
      }
    }

    method OnClosed(now: int, hook: Option<int>)
      requires Valid() && now == abs.clock
      modifies this
      ensures Valid() && abs == Lose(cfg, old(abs), true, hook)
    {
      wsi := 0;
      phase := Idle;
      abs := abs.(wsi := 0, live := abs.live - {abs.wsi}, phase := Idle);
      if !stopping {
        fails := fails + 1;
        abs := abs.(fails := abs.fails + 1);
        ScheduleReconnect(now, hook);
      }
    }

    method OnWsiDestroy(w: nat)
      requires Valid() && w != 0
      modifies this
      ensures Valid() && abs == Apply(cfg, old(abs), WsiDestroy(w))
    {
      if wsi == w {
        wsi := 0;
      }
      abs := Destroy(abs, w);
    }

    method DoConnect(now: int, o: Outcome, handle: nat, hook: Option<int>, hook2: Option<int>)
      requires Valid() && now == abs.clock && 0 < handle == abs.nextId
      modifies this
      ensures Valid() && abs == Lifecycle.DoConnect(cfg, old(abs), o, hook, hook2)
    {
      phase := Connecting;
      abs := Begun(abs, o);
      if o == ErrorThenNull {
        OnConnectionError(now, hook);
      }
      wsi := if o == Handle then handle else 0;
      abs := if o == Handle then abs.(wsi := handle, live := abs.live + {handle}, nextId := handle + 1)
             else AfterNull(cfg, abs);
      if wsi == 0 {
        ScheduleReconnect(now, if o == Null then hook else hook2);
      }
    }

    method OnEstablished()
      requires Valid() && Enabled(cfg, abs, Established)
      modifies this
      ensures Valid() && abs == Apply(cfg, old(abs), Established)
    {
      phase := Connected;
      delay := cfg.initMs;
      fails := 0;
      abs := Establish(cfg, abs);
    }

    method SulReconnect(now: int, o: Outcome, handle: nat, hook: Option<int>, hook2: Option<int>)
      requires Valid() && now == abs.clock && 0 < handle == abs.nextId && Enabled(cfg, abs, TimerFires(o, hook, hook2))
      modifies this
      ensures Valid() && abs == Apply(cfg, old(abs), TimerFires(o, hook, hook2))
    {
      sul := None;
      abs := abs.(timer := None);
      if !stopping {
        DoConnect(now, o, handle, hook, hook2);
      }
    }
  }
}
