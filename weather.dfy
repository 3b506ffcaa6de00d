/**
 * The sky: its colour walks one step per day/night tick between the night
 * and day colours, turning back at either end, and a reddish tint fades in
 * and out while the blue channel crosses the morning or evening band.
 */
module Weather {
  import opened Wrappers
  import opened PyNum
  import opened Alarms

  const MAX_RGB: seq<int> := [150, 200, 255]
  const MIN_RGB: seq<int> := [0, 0, 20]

  /** `rgb_tint_ranges`: the blue band of the morning (while brightening) and of the evening. */
  const TINT_RANGES: seq<(int, int)> := [(50, 100), (125, 175)]

  /** The sky's colour lies between the night and the day colour, channel by channel. */
  predicate InRange(rgb: seq<int>)
  {
    |rgb| == 3 && forall i :: 0 <= i < 3 ==> MIN_RGB[i] <= rgb[i] <= MAX_RGB[i]
  }

  /** `np.clip(rgb + update, MIN_RGB, MAX_RGB)`. */
  function ClipAdd(rgb: seq<int>, update: int): (r: seq<int>)
    requires |rgb| == 3
    ensures |r| == 3
    ensures forall i :: 0 <= i < 3 ==> r[i] == Clip(rgb[i] + update, MIN_RGB[i], MAX_RGB[i])
  {
    seq(3, i requires 0 <= i < 3 => Clip(rgb[i] + update, MIN_RGB[i], MAX_RGB[i]))
  }

  /** One day/night step always leaves the colour in range, and a step that stays inside the range moves every channel by the update. */
  lemma ClipAddInRange(rgb: seq<int>, update: int)
    requires |rgb| == 3
    ensures InRange(ClipAdd(rgb, update))
    ensures (forall i :: 0 <= i < 3 ==> MIN_RGB[i] <= rgb[i] + update <= MAX_RGB[i]) ==>
      forall i :: 0 <= i < 3 ==> ClipAdd(rgb, update)[i] == rgb[i] + update
  {
  }

  /** The direction after a step: it turns exactly when the whole colour is the day or the night colour. */
  function NextUpdate(rgb: seq<int>, update: int): int
  {
    if rgb == MAX_RGB || rgb == MIN_RGB then -update else update
  }

  /**
   * At the day colour a brightening step clips to it and turns to darkening,
   * at the night colour a darkening step turns to brightening, and the first
   * darkening step from the day colour does not turn back.
   */
  lemma TurnsAtEnds()
    ensures ClipAdd(MAX_RGB, 1) == MAX_RGB && NextUpdate(ClipAdd(MAX_RGB, 1), 1) == -1
    ensures ClipAdd(MIN_RGB, -1) == MIN_RGB && NextUpdate(ClipAdd(MIN_RGB, -1), -1) == 1
    ensures NextUpdate(ClipAdd(MAX_RGB, -1), -1) == -1
  {
    assert ClipAdd(MAX_RGB, -1)[0] == 149;
  }

  /** `update_tint` on the pair (alpha, direction): at 0 going down or 255 going up the direction turns, otherwise alpha moves. */
  function TintStep(alpha: int, dir: int): (int, int)
  {
    if (alpha == 0 && dir == -1) || (alpha == 255 && dir == 1) then (alpha, -dir) else (alpha + dir, dir)
  }

  /** With alpha in [0, 255] and a direction of one step, the tint stays in [0, 255]; at a bound it turns without moving. */
  lemma TintStepInRange(alpha: int, dir: int)
    requires 0 <= alpha <= 255 && (dir == 1 || dir == -1)
    ensures 0 <= TintStep(alpha, dir).0 <= 255
    ensures TintStep(alpha, dir).1 == 1 || TintStep(alpha, dir).1 == -1
    ensures (alpha == 0 && dir == -1) || (alpha == 255 && dir == 1) ==>
      TintStep(alpha, dir) == (alpha, -dir)
  {
  }

  /** The blue band the tint shows in: the morning band while the sky brightens, otherwise the evening band. */
  function TintRange(update: int): (r: (int, int))
    ensures update > 0 ==> r == TINT_RANGES[0]
    ensures update <= 0 ==> r == TINT_RANGES[1]
  {
    TINT_RANGES[if update > 0 then 0 else 1]
  }

  /** The tint shows while the blue channel is strictly inside that band. */
  predicate TintShows(blue: int, update: int)
  {
    TintRange(update).0 < blue < TintRange(update).1
  }

  /** The two bands are apart, so for a given blue at most one direction shows the tint within a band. */
  lemma TintBandsDisjoint(blue: int)
    ensures !(TintShows(blue, 1) && TintShows(blue, -1))
  {
  }

  /** The alarms of the sky as written: the day/night cycle is passed `auto_start`, a keyword the alarm does not read. */
  const DAY_NIGHT_ALARM_AS_WRITTEN: AlarmConfig :=
    Bind(10000, [("function", Fn(DayNightCycle)), ("auto_start", Flag(true)), ("loop", Flag(true))])
  const TINT_ALARM: AlarmConfig :=
    Bind(1000, [("function", Fn(UpdateTint)), ("auto_start", Flag(false)), ("loop", Flag(true))])

  /** The day/night alarm with the keyword the alarm reads. */
  const DAY_NIGHT_ALARM: AlarmConfig :=
    Bind(10000, [("function", Fn(DayNightCycle)), ("auto", Flag(true)), ("loop", Flag(true))])

  /** As written the day/night alarm never starts on its own; with `auto` it does. Both loop and call the cycle. */
  lemma DayNightStartsOnlyWithAuto()
    ensures !DAY_NIGHT_ALARM_AS_WRITTEN.auto && DAY_NIGHT_ALARM.auto
    ensures DAY_NIGHT_ALARM_AS_WRITTEN.loop && DAY_NIGHT_ALARM.loop
    ensures DAY_NIGHT_ALARM.callback == Some(DayNightCycle) && DAY_NIGHT_ALARM_AS_WRITTEN.callback == Some(DayNightCycle)
    ensures !TINT_ALARM.auto && TINT_ALARM.loop && TINT_ALARM.callback == Some(UpdateTint)
  {
  }

  /** What the sky keeps between frames: the colour and its direction, the tint's alpha and its direction. */
  datatype SkyState = SkyState(rgb: seq<int>, rgbUpdate: int, tintAlpha: int, tintUpdate: int)

  /** The colour in range and the tint's alpha in [0, 255] with a direction of one step. */
  predicate Steady(st: SkyState)
  {
    InRange(st.rgb) && 0 <= st.tintAlpha <= 255 && (st.tintUpdate == 1 || st.tintUpdate == -1)
  }

  /** The sky method an alarm's callback names, run on the sky's state: the day/night step, the tint step, or nothing. */
  function Run(st: SkyState, called: Option<Callback>): SkyState
    requires |st.rgb| == 3
  {
    if called == Some(Callback.DayNightCycle) then
      var c := ClipAdd(st.rgb, st.rgbUpdate);
      st.(rgb := c, rgbUpdate := NextUpdate(c, st.rgbUpdate))
    else if called == Some(Callback.UpdateTint) then
      var t := TintStep(st.tintAlpha, st.tintUpdate);
      st.(tintAlpha := t.0, tintUpdate := t.1)
    else st
  }

  /**
   * Whatever an alarm calls, the day/night step touches only the colour and
   * its direction, the tint step only the tint, and a steady sky stays
   * steady.
   */
  lemma RunSteady(st: SkyState, called: Option<Callback>)
    requires |st.rgb| == 3
    ensures |Run(st, called).rgb| == 3
    ensures called == Some(Callback.DayNightCycle) ==>
      Run(st, called).tintAlpha == st.tintAlpha && Run(st, called).tintUpdate == st.tintUpdate
    ensures called == Some(Callback.UpdateTint) ==>
      Run(st, called).rgb == st.rgb && Run(st, called).rgbUpdate == st.rgbUpdate
    ensures called != Some(Callback.DayNightCycle) && called != Some(Callback.UpdateTint) ==> Run(st, called) == st
    ensures InRange(st.rgb) ==> InRange(Run(st, called).rgb)
    ensures Steady(st) ==> Steady(Run(st, called))
  {
    ClipAddInRange(st.rgb, st.rgbUpdate);
    if 0 <= st.tintAlpha <= 255 && (st.tintUpdate == 1 || st.tintUpdate == -1) {
      TintStepInRange(st.tintAlpha, st.tintUpdate);
    }
  }

  /** What a save file holds of the sky. */
  datatype SkySave = SkySave(rgb: seq<int>, rgbUpdate: int, tintAlpha: int, tintUpdate: int)

  class Sky {
    /** The colour, updated in place. */
    const rgb: array<int>
    /** The step added to every channel per tick: -1 darkens, 1 brightens. */
    var rgbUpdate: int
    var tintAlpha: int
    var tintUpdate: int
    const dayNight: Alarm
    const tint: Alarm

    predicate Valid()
      reads this
    {
      rgb.Length == 3 && dayNight != tint
    }

    /** The sky's current state. */
    function State(): (st: SkyState)
      reads this, rgb
      ensures |st.rgb| == rgb.Length
    {
      SkyState(rgb[..], rgbUpdate, tintAlpha, tintUpdate)
    }

    /**
     * `Sky.__init__`: from the save data when there is some, otherwise
     * the day colour, darkening, with no tint that will first brighten;
     * the alarms are built with the intended `auto` keyword.
     */
    constructor (save: Option<SkySave>, now: int)
      requires save.Some? ==> |save.value.rgb| == 3
      ensures Valid() && fresh(rgb) && fresh(dayNight) && fresh(tint)
      ensures save.None? ==> rgb[..] == MAX_RGB && rgbUpdate == -1 && tintAlpha == 0 && tintUpdate == 1
      ensures save.Some? ==>
        (rgb[..] == save.value.rgb && rgbUpdate == save.value.rgbUpdate
         && tintAlpha == save.value.tintAlpha && tintUpdate == save.value.tintUpdate)
      ensures dayNight.running && dayNight.startTime == now && dayNight.loop && dayNight.callback == Some(Callback.DayNightCycle)
      ensures !tint.running && tint.loop && tint.callback == Some(Callback.UpdateTint)
    {
      var colour := NewColour(if save.Some? then save.value.rgb else MAX_RGB);
      rgb := colour;
      if save.Some? {
        rgbUpdate, tintAlpha, tintUpdate := save.value.rgbUpdate, save.value.tintAlpha, save.value.tintUpdate;
      } else {
        rgbUpdate, tintAlpha, tintUpdate := -1, 0, 1;
      }
      DayNightStartsOnlyWithAuto();
      dayNight := new Alarm(DAY_NIGHT_ALARM, now);
      tint := new Alarm(TINT_ALARM, now);
    }

    /** A fresh array holding the colour `c`. */
    static method NewColour(c: seq<int>) returns (a: array<int>)
      requires |c| == 3
      ensures fresh(a) && a[..] == c
    {
      a := new int[3](i requires 0 <= i < 3 => c[i]);
    }

    /**
     * `day_night_cycle`: every channel moves by the update, clipped to the
     * night and day colours, and the direction turns when the whole colour
     * is one of them.
     */
    method DayNightCycle()
      requires Valid()
      modifies rgb, this`rgbUpdate
      ensures rgb[..] == ClipAdd(old(rgb[..]), old(rgbUpdate))
      ensures rgbUpdate == NextUpdate(rgb[..], old(rgbUpdate))
      ensures InRange(rgb[..])
    {
      ghost var before := rgb[..];
      forall i | 0 <= i < 3 {
        rgb[i] := Clip(rgb[i] + rgbUpdate, MIN_RGB[i], MAX_RGB[i]);
      }
      assert rgb[..] == ClipAdd(before, rgbUpdate);
      ClipAddInRange(before, rgbUpdate);
      if rgb[..] == MAX_RGB || rgb[..] == MIN_RGB {
        rgbUpdate := -rgbUpdate;
      }
    }

    /** `update_tint`: one step of the fade; see `TintStep`. */
    method UpdateTint()
      modifies this`tintAlpha, this`tintUpdate
      ensures (tintAlpha, tintUpdate) == TintStep(old(tintAlpha), old(tintUpdate))
    {
      if (tintAlpha == 0 && tintUpdate == -1) || (tintAlpha == 255 && tintUpdate == 1) {
        tintUpdate := -tintUpdate;
      } else {
        tintAlpha := tintAlpha + tintUpdate;
      }
    }

    /**
     * `render_tint` without the drawing: inside the band the tint alarm
     * starts if it is not running, and the tint is drawn with the current
     * alpha; the result is that alpha, or `None` when no tint is drawn.
     */
    method RenderTint(now: int) returns (drawn: Option<int>)
      requires Valid()
      modifies tint
      ensures TintShows(rgb[2], rgbUpdate) ==> drawn == Some(tintAlpha) && tint.running
      ensures TintShows(rgb[2], rgbUpdate) && !old(tint.running) ==> tint.startTime == now
      ensures !TintShows(rgb[2], rgbUpdate) ==> drawn.None?
      ensures !(TintShows(rgb[2], rgbUpdate) && !old(tint.running)) ==>
        tint.running == old(tint.running) && tint.startTime == old(tint.startTime)
    {
      var band := TintRange(rgbUpdate);
      drawn := None;
      if band.0 < rgb[2] < band.1 {
        if !tint.running {
          tint.Start(now);
        }
        drawn := Some(tintAlpha);
      }
    }

    /** Runs the sky method an alarm reports. */
    method Dispatch(called: Option<Callback>)
      requires Valid()
      modifies rgb, this`rgbUpdate, this`tintAlpha, this`tintUpdate
      ensures called == Some(Callback.DayNightCycle) ==>
        rgb[..] == ClipAdd(old(rgb[..]), old(rgbUpdate)) && tintAlpha == old(tintAlpha) && tintUpdate == old(tintUpdate)
      ensures called == Some(Callback.UpdateTint) ==>
        rgb[..] == old(rgb[..]) && rgbUpdate == old(rgbUpdate)
        && (tintAlpha, tintUpdate) == TintStep(old(tintAlpha), old(tintUpdate))
      ensures called != Some(Callback.DayNightCycle) && called != Some(Callback.UpdateTint) ==>
        rgb[..] == old(rgb[..]) && rgbUpdate == old(rgbUpdate) && tintAlpha == old(tintAlpha) && tintUpdate == old(tintUpdate)
      ensures State() == Run(old(State()), called)
    {
      if called == Some(Callback.DayNightCycle) {
        DayNightCycle();
      } else if called == Some(Callback.UpdateTint) {
        UpdateTint();
      }
    }

    /**
     * `Sky.update` without the drawing: the tint check, then each alarm in
     * turn, the day/night alarm first, running whatever it calls. The tint
     * check may start the tint alarm now, and the tint alarm's report is
     * taken from that state. A steady sky stays steady.
     */
    method Update(now: int) returns (drawn: Option<int>)
      requires Valid()
      modifies rgb, this`rgbUpdate, this`tintAlpha, this`tintUpdate, dayNight, tint
      ensures Valid()
      ensures drawn == if TintShows(old(rgb[2]), old(rgbUpdate)) then Some(old(tintAlpha)) else None
      ensures var shows := TintShows(old(rgb[2]), old(rgbUpdate));
        var first := Report(old(dayNight.running), old(dayNight.startTime), dayNight.length, dayNight.callback, now);
        var second := Report(old(tint.running) || shows, if shows && !old(tint.running) then now else old(tint.startTime),
          tint.length, tint.callback, now);
        State() == Run(Run(old(State()), first), second)
      ensures old(InRange(rgb[..])) ==> InRange(rgb[..])
      ensures old(Steady(State())) ==> Steady(State())
    {
      ghost var st0 := State();
      drawn := RenderTint(now);
      ghost var first := Report(dayNight.running, dayNight.startTime, dayNight.length, dayNight.callback, now);
      ghost var second := Report(tint.running, tint.startTime, tint.length, tint.callback, now);
      assert State() == st0;
      Tick(dayNight, now);
      ghost var st1 := State();
      assert st1 == Run(st0, first);
      Tick(tint, now);
      assert State() == Run(st1, second);
      RunSteady(st0, first);
      RunSteady(st1, second);
    }

    /**
     * Updates one of the sky's alarms and runs the method it reports: the
     * sky's state becomes `Run` of the alarm's report, and the alarm
     * restarts or stops as `Alarm.update` says.
     */
    method Tick(alarm: Alarm, now: int)
      requires Valid() && (alarm == dayNight || alarm == tint)
      modifies rgb, this`rgbUpdate, this`tintAlpha, this`tintUpdate, alarm
      ensures State() == Run(old(State()), Report(old(alarm.running), old(alarm.startTime), alarm.length, alarm.callback, now))
      ensures old(alarm.running) && now - old(alarm.startTime) >= alarm.length ==>
        alarm.running == alarm.loop && alarm.startTime == (if alarm.loop then now else 0)
      ensures !(old(alarm.running) && now - old(alarm.startTime) >= alarm.length) ==>
        alarm.running == old(alarm.running) && alarm.startTime == old(alarm.startTime)
      ensures old(InRange(rgb[..])) ==> InRange(rgb[..])
      ensures old(Steady(State())) ==> Steady(State())
    {
      ghost var st0 := State();
      var called := alarm.Update(now);
      assert State() == st0;
      Dispatch(called);
      RunSteady(st0, called);
    }
  }
}
