/**
 * The game's timer: started at a time, it ends once `length` milliseconds
 * have passed, invoking its callback, and starts over when it loops. The clock
 * is an explicit `now` argument, in milliseconds.
 */
module Alarms {
  import opened Wrappers

  /** The bound methods the game hands to its alarms. */
  datatype Callback =
    | LoseOxygen | RegenHp | DayNightCycle | UpdateTint
    | UpdateSlot | Transfer | ReceiveItem | SendItem | Transport | Extract | BurnFuel

  /** A keyword argument's value, as far as the alarm reads it. */
  datatype Arg = Fn(cb: Callback) | Flag(b: bool)

  /** What the constructor binds: the callback, whether it starts at once, whether it loops. */
  datatype AlarmConfig = AlarmConfig(length: int, callback: Option<Callback>, auto: bool, loop: bool)

  /** The first value given under `key`, if any. */
  function Lookup(kw: seq<(string, Arg)>, key: string): (r: Option<Arg>)
    ensures r.Some? <==> exists i :: 0 <= i < |kw| && kw[i].0 == key
    ensures r.Some? ==> exists i :: 0 <= i < |kw| && kw[i] == (key, r.value)
  {
    if kw == [] then None
    else if kw[0].0 == key then Some(kw[0].1)
    else
      var r := Lookup(kw[1..], key);
      assert forall i :: 1 <= i < |kw| ==> kw[i] == kw[1..][i - 1];
      r
  }

  /**
   * `Alarm(length, **kw)`: only the keywords `function`, `auto` and `loop`
   * reach those parameters; any other keyword lands in the alarm's own
   * `kwargs` and changes nothing.
   */
  function Bind(length: int, kw: seq<(string, Arg)>): (c: AlarmConfig)
    ensures c.length == length
    ensures c.callback.Some? ==> Lookup(kw, "function") == Some(Fn(c.callback.value))
    ensures (forall i :: 0 <= i < |kw| ==> kw[i].0 != "function") ==> c.callback.None?
    ensures c.auto <==> Lookup(kw, "auto") == Some(Flag(true))
    ensures c.loop <==> Lookup(kw, "loop") == Some(Flag(true))
  {
    var f := Lookup(kw, "function");
    var a := Lookup(kw, "auto");
    var l := Lookup(kw, "loop");
    AlarmConfig(length,
      if f.Some? && f.value.Fn? then Some(f.value.cb) else None,
      a == Some(Flag(true)),
      l == Some(Flag(true)))
  }

  /** What `Alarm.update` reports at `now`: the callback once `length` has elapsed on a running alarm, else nothing. */
  function Report(running: bool, startTime: int, length: int, callback: Option<Callback>, now: int): (r: Option<Callback>)
    ensures running && now - startTime >= length ==> r == callback
    ensures !(running && now - startTime >= length) ==> r.None?
  {
    if running && now - startTime >= length then callback else None
  }

  /** The running flag and start time `Alarm.update` leaves at `now`: restarted or stopped once due, else as they were. */
  function Next(running: bool, startTime: int, length: int, loop: bool, now: int): (s: (bool, int))
    ensures !(running && now - startTime >= length) ==> s == (running, startTime)
    ensures running && now - startTime >= length ==> s == (loop, if loop then now else 0)
  {
    if running && now - startTime >= length then (loop, if loop then now else 0) else (running, startTime)
  }

  class Alarm {
    const length: int
    const callback: Option<Callback>
    const loop: bool
    var running: bool
    var startTime: int

    /** `Alarm.__init__`: stopped, unless `auto` starts it at once. */
    constructor (cfg: AlarmConfig, now: int)
      ensures length == cfg.length && callback == cfg.callback && loop == cfg.loop
      ensures running == cfg.auto && (cfg.auto ==> startTime == now)
    {
      length, callback, loop := cfg.length, cfg.callback, cfg.loop;
      running := false;
      startTime := 0;
      new;
      if cfg.auto {
        Start(now);
      }
    }

    /** `start`: running from `now`. */
    method Start(now: int)
      modifies this
      ensures running && startTime == now
    {
      running := true;
      startTime := now;
    }

    /** The first half of `end`: stopped, before the callback runs. A callback that raises leaves the alarm here. */
    method Halt()
      modifies this
      ensures !running && startTime == 0
    {
      running := false;
      startTime := 0;
    }

    /** `end`: stopped, the callback (if any) invoked once, then restarted when looping. */
    method End(now: int) returns (called: Option<Callback>)
      modifies this
      ensures called == callback
      ensures running == loop && startTime == (if loop then now else 0)
    {
      Halt();
      called := callback;
      if loop {
        Start(now);
      }
    }

    /** `update`: nothing unless running; ends the alarm once `length` has elapsed since the start. */
    method Update(now: int) returns (called: Option<Callback>)
      modifies this
      ensures called == Report(old(running), old(startTime), length, callback, now)
      ensures (running, startTime) == Next(old(running), old(startTime), length, loop, now)
      ensures old(running) && now - old(startTime) >= length ==>
        called == callback && running == loop && startTime == (if loop then now else 0)
      ensures !(old(running) && now - old(startTime) >= length) ==>
        called.None? && running == old(running) && startTime == old(startTime)
    {
      called := None;
      if running && now - startTime >= length {
        called := End(now);
      }
    }
  }
}
