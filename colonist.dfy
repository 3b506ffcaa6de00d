/**
 * The colonist sprites, the player among them: their position and motion
 * fields as the physics engine reads and writes them, and the oxygen and HP
 * bookkeeping driven by two alarms.
 */
module Colonists {
  import opened Wrappers
  import opened Settings
  import opened Rects
  import opened Inventories
  import opened Alarms
  import TileRegistry

  /** The animation states the game sets. */
  datatype State = Idle | Walking | Jumping | Mining | Chopping

  const DEFAULT_JUMP_HEIGHT := 350
  const MAX_HP := 8
  const MAX_OXYGEN := 8
  const ARM_STRENGTH := 4

  /** The keyword arguments the colonist passes to its two alarms, as written: the callback under `fn`. */
  const OXYGEN_ALARM_AS_WRITTEN: AlarmConfig := Bind(2500, [("fn", Fn(LoseOxygen))])
  const REGEN_ALARM_AS_WRITTEN: AlarmConfig := Bind(10000, [("fn", Fn(RegenHp))])

  /** The same alarms with the callback under the keyword the alarm reads. */
  const OXYGEN_ALARM: AlarmConfig := Bind(2500, [("function", Fn(LoseOxygen))])
  const REGEN_ALARM: AlarmConfig := Bind(10000, [("function", Fn(RegenHp))])

  /** Under `fn` the callbacks never reach the alarms, so neither ever calls anything. */
  lemma AlarmCallbacksLost()
    ensures OXYGEN_ALARM_AS_WRITTEN.callback.None? && REGEN_ALARM_AS_WRITTEN.callback.None?
  {
  }

  /** Under `function` each alarm calls its colonist method, and neither starts on its own or loops. */
  lemma AlarmCallbacksBound()
    ensures OXYGEN_ALARM.callback == Some(LoseOxygen) && REGEN_ALARM.callback == Some(RegenHp)
    ensures !OXYGEN_ALARM.auto && !OXYGEN_ALARM.loop && !REGEN_ALARM.auto && !REGEN_ALARM.loop
  {
  }

  /** The index into `idxs_to_biomes` of the column under a sprite whose rect starts at `x`. */
  function BiomeIndex(x: int): int
  {
    (x / TILE_SIZE) / BIOME_WIDTH
  }

  /** Every position the movement clamp allows lies in one of the five surface biomes. */
  lemma BiomeIndexInRange(x: int)
    requires 0 <= x <= WORLD_EDGE_RIGHT
    ensures 0 <= BiomeIndex(x) < |BIOMES| - 1
  {
  }

  /** The stats the alarm callbacks change: HP, oxygen, and whether the sprite is still in its groups. */
  datatype Vitals = Vitals(hp: int, oxygen: int, alive: bool)

  /** A player whose last HP goes in `lose_oxygen` respawns. */
  predicate Respawns(v: Vitals, called: Option<Callback>, isPlayer: bool)
  {
    called == Some(LoseOxygen) && v.oxygen < 1 && v.hp - 1 == 0 && isPlayer
  }

  /**
   * The stats after the colonist method an alarm reports: `lose_oxygen`
   * takes oxygen while any is left, then HP, and at 0 HP the player
   * respawns with full stats and any other colonist dies; `regen_hp` adds
   * one HP; anything else leaves them.
   */
  function Effect(v: Vitals, called: Option<Callback>, isPlayer: bool, maxHp: int, maxOxygen: int): Vitals
  {
    match called
    case Some(LoseOxygen) =>
      if v.oxygen >= 1 then v.(oxygen := v.oxygen - 1)
      else if v.hp - 1 != 0 then v.(hp := v.hp - 1)
      else if isPlayer then Vitals(maxHp, maxOxygen, v.alive)
      else Vitals(0, v.oxygen, false)
    case Some(RegenHp) => v.(hp := v.hp + 1)
    case _ => v
  }

  /**
   * Under water the stats run down in order: oxygen goes first, HP only once
   * the oxygen is gone, and neither rises except when a player respawns full.
   * From stats in range they stay in range, and a colonist that dies has 0 HP.
   */
  lemma LoseOxygenRunsDown(v: Vitals, isPlayer: bool, maxHp: int, maxOxygen: int)
    requires 0 <= v.oxygen <= maxOxygen && 1 <= v.hp <= maxHp && v.alive
    ensures var w := Effect(v, Some(LoseOxygen), isPlayer, maxHp, maxOxygen);
      0 <= w.oxygen <= maxOxygen && (w.alive ==> 1 <= w.hp <= maxHp) && (!w.alive ==> w.hp == 0 && !isPlayer)
    ensures var w := Effect(v, Some(LoseOxygen), isPlayer, maxHp, maxOxygen);
      (Respawns(v, Some(LoseOxygen), isPlayer) ==> w == Vitals(maxHp, maxOxygen, true))
      && (w.hp > v.hp || w.oxygen > v.oxygen ==> Respawns(v, Some(LoseOxygen), isPlayer))
    ensures var w := Effect(v, Some(LoseOxygen), isPlayer, maxHp, maxOxygen);
      !Respawns(v, Some(LoseOxygen), isPlayer) ==> w.oxygen <= v.oxygen && w.hp <= v.hp && (w.hp < v.hp ==> v.oxygen == 0)
  {
  }

  class Colonist {
    var rect: Rect
    var dirX: real
    var dirY: real
    var state: State
    var grounded: bool
    var gravity: int
    const defaultGravity: int
    var jumpHeight: int
    const defaultJumpHeight: int
    var underwater: bool
    var oxygen: int
    const maxOxygen: int
    var hp: int
    const maxHp: int
    const armStrength: int
    const moveSpeed: int
    var currentBiome: Option<Biome>
    /** The `xy` the sprite was created at, where a player respawns. */
    const spawnPoint: Coord
    /** The player is the colonist on the player's layer. */
    const isPlayer: bool
    /** False once `kill` has removed the sprite from its groups. */
    var alive: bool
    const inventory: SpriteInventory
    const oxygenAlarm: Alarm
    const regenAlarm: Alarm

    /** The inventory is consistent and the two alarms are different objects. */
    ghost predicate Valid()
      reads this, inventory
    {
      inventory.Valid() && oxygenAlarm != regenAlarm
    }

    /**
     * `Colonist.__init__` without save data: standing at `xy` (its midbottom),
     * idle, in the air, with full HP and oxygen, the default gravity and jump
     * height, holding nothing; a player starts with the player's default
     * contents.
     */
    constructor (xy: Coord, w: int, h: int, isPlayer: bool, currentBiome: Option<Biome>, now: int)
      requires w >= 0 && h >= 0
      ensures Valid() && fresh(inventory) && fresh(oxygenAlarm) && fresh(regenAlarm)
      ensures rect == Rect(xy.0 - w / 2, xy.1 - h, w, h) && dirX == 0.0 && dirY == 0.0
      ensures state == Idle && !grounded && !underwater && alive
      ensures gravity == defaultGravity == GRAVITY && jumpHeight == defaultJumpHeight == DEFAULT_JUMP_HEIGHT
      ensures hp == maxHp == MAX_HP && oxygen == maxOxygen == MAX_OXYGEN && armStrength == ARM_STRENGTH
      ensures spawnPoint == xy && this.isPlayer == isPlayer && this.currentBiome == currentBiome
      ensures inventory.holding.None?
      ensures isPlayer ==> inventory.keys == PLAYER_START_NAMES
      ensures !isPlayer ==> inventory.keys == []
      ensures !oxygenAlarm.running && oxygenAlarm.callback == Some(Callback.LoseOxygen) && oxygenAlarm.length == 2500
      ensures !regenAlarm.running && regenAlarm.callback == Some(Callback.RegenHp) && regenAlarm.length == 10000
    {
      rect := Rect(xy.0 - w / 2, xy.1 - h, w, h);
      dirX, dirY := 0.0, 0.0;
      state := Idle;
      grounded, underwater, alive := false, false, true;
      gravity, defaultGravity := GRAVITY, GRAVITY;
      jumpHeight, defaultJumpHeight := DEFAULT_JUMP_HEIGHT, DEFAULT_JUMP_HEIGHT;
      hp, maxHp, oxygen, maxOxygen := MAX_HP, MAX_HP, MAX_OXYGEN, MAX_OXYGEN;
      armStrength, moveSpeed := ARM_STRENGTH, 500;
      spawnPoint := xy;
      this.isPlayer := isPlayer;
      this.currentBiome := currentBiome;
      if isPlayer {
        assert Distinct(PLAYER_START_NAMES) by {
          var s := PLAYER_START_NAMES;
          assert forall i :: 0 <= i < |s| ==> s[i] == PLAYER_START_NAMES[i];
        }
        inventory := new SpriteInventory.WithContents(PLAYER_START_NAMES, PLAYER_START_AMOUNTS, None);
      } else {
        inventory := new SpriteInventory.Empty(None);
      }
      AlarmCallbacksBound();
      oxygenAlarm := new Alarm(OXYGEN_ALARM, now);
      regenAlarm := new Alarm(REGEN_ALARM, now);
    }

    /**
     * `update_current_biome`: while the sprite moves, the biome of its
     * column; an index past the five surface biomes is the KeyError the
     * dictionary raises, reported as `ok == false` with nothing changed.
     */
    method UpdateCurrentBiome() returns (ok: bool)
      modifies this`currentBiome
      ensures ok <==> !(dirX != 0.0 || dirY != 0.0) || 0 <= BiomeIndex(rect.x) < |BIOMES| - 1
      ensures ok && (dirX != 0.0 || dirY != 0.0) ==> currentBiome == Some(TileRegistry.BiomeAt(BiomeIndex(rect.x)))
      ensures !(ok && (dirX != 0.0 || dirY != 0.0)) ==> currentBiome == old(currentBiome)
    {
      ok := true;
      if dirX != 0.0 || dirY != 0.0 {
        var i := BiomeIndex(rect.x);
        if !(0 <= i < |BIOMES| - 1) {
          return false;
        }
        var biome := TileRegistry.BiomeAt(i);
        if currentBiome.None? || currentBiome.value != biome {
          currentBiome := Some(biome);
        }
      }
    }

    /** The colonist's HP, oxygen and liveness as a value. */
    function Stats(): Vitals
      reads this
    {
      Vitals(hp, oxygen, alive)
    }

    /** `check_oxygen_level`: under water, the oxygen alarm starts unless it is already running. */
    method CheckOxygenLevel(now: int)
      modifies oxygenAlarm
      ensures underwater && !old(oxygenAlarm.running) ==> oxygenAlarm.running && oxygenAlarm.startTime == now
      ensures !(underwater && !old(oxygenAlarm.running)) ==>
        oxygenAlarm.running == old(oxygenAlarm.running) && oxygenAlarm.startTime == old(oxygenAlarm.startTime)
    {
      if underwater && !oxygenAlarm.running {
        oxygenAlarm.Start(now);
      }
    }

    /** `check_hp_level`: below full HP and out of the water, the regeneration alarm starts unless running. */
    method CheckHpLevel(now: int)
      modifies regenAlarm
      ensures hp < maxHp && !underwater && !old(regenAlarm.running) ==> regenAlarm.running && regenAlarm.startTime == now
      ensures !(hp < maxHp && !underwater && !old(regenAlarm.running)) ==>
        regenAlarm.running == old(regenAlarm.running) && regenAlarm.startTime == old(regenAlarm.startTime)
    {
      if hp < maxHp && !underwater && !regenAlarm.running {
        regenAlarm.Start(now);
      }
    }

    /** `regen_hp`: one more HP. */
    method RegenHp()
      modifies this`hp
      ensures hp == old(hp) + 1
    {
      hp := hp + 1;
    }

    /**
     * `lose_oxygen`: one unit of oxygen while any is left; otherwise one HP,
     * and death when none is left.
     */
    method LoseOxygen()
      requires Valid()
      modifies this, inventory, oxygenAlarm`running
      ensures Valid()
      ensures old(oxygen) >= 1 ==> oxygen == old(oxygen) - 1 && hp == old(hp) && alive == old(alive)
      ensures old(oxygen) < 1 && old(hp) - 1 != 0 ==> hp == old(hp) - 1 && oxygen == old(oxygen) && alive == old(alive)
      ensures old(oxygen) < 1 && old(hp) - 1 == 0 && isPlayer ==> Respawned() && alive == old(alive)
      ensures old(oxygen) < 1 && old(hp) - 1 == 0 && !isPlayer ==> hp == 0 && !alive && oxygen == old(oxygen)
      ensures !(old(oxygen) < 1 && old(hp) - 1 == 0 && isPlayer) ==> oxygenAlarm.running == old(oxygenAlarm.running)
    {
      if oxygen >= 1 {
        oxygen := oxygen - 1;
      } else {
        hp := hp - 1;
        if hp == 0 {
          Die();
        }
      }
    }

    /**
     * `die`: the inventory is dropped as item sprites (which the model leaves
     * out: the contents stay), then the player respawns and any other sprite
     * is killed.
     */
    method Die()
      requires Valid()
      modifies this, inventory, oxygenAlarm`running
      ensures Valid()
      ensures isPlayer ==> Respawned() && alive == old(alive)
      ensures !isPlayer ==> !alive && hp == old(hp) && oxygen == old(oxygen) && oxygenAlarm.running == old(oxygenAlarm.running)
    {
      if isPlayer {
        Respawn();
      } else {
        alive := false;
      }
    }

    /** The state `Player.respawn` leaves. */
    ghost predicate Respawned()
      reads this, inventory, oxygenAlarm
    {
      hp == maxHp && oxygen == maxOxygen && !underwater && !oxygenAlarm.running
      && rect.x == spawnPoint.0 - rect.w / 2 && rect.y == spawnPoint.1 - rect.h / 2
      && dirX == 0.0 && dirY == 0.0 && grounded && gravity == defaultGravity
      && inventory.keys == [] && inventory.amounts == map[] && inventory.holding.None?
    }

    /**
     * `Player.respawn`: full HP and oxygen, out of the water with the oxygen
     * alarm stopped, centred on the spawn point at rest and grounded with
     * the default gravity, and an empty inventory holding nothing.
     */
    method Respawn()
      requires Valid()
      modifies this, inventory, oxygenAlarm`running
      ensures Valid() && Respawned()
      ensures rect.w == old(rect.w) && rect.h == old(rect.h)
      ensures alive == old(alive) && regenAlarm.running == old(regenAlarm.running)
    {
      hp := maxHp;
      oxygen := maxOxygen;
      underwater := false;
      oxygenAlarm.running := false;
      rect := rect.(x := spawnPoint.0 - rect.w / 2, y := spawnPoint.1 - rect.h / 2);
      dirX, dirY := 0.0, 0.0;
      grounded := true;
      gravity := defaultGravity;
      inventory.Clear();
    }

    /**
     * Runs the colonist method an alarm reports. The stats change as `Effect`
     * says; a respawn also resets the rest of the player and stops the oxygen
     * alarm, which nothing else here touches.
     */
    method Dispatch(called: Option<Callback>)
      requires Valid()
      modifies this, inventory, oxygenAlarm`running
      ensures Valid()
      ensures Stats() == Effect(old(Stats()), called, isPlayer, maxHp, maxOxygen)
      ensures Respawns(old(Stats()), called, isPlayer) ==> Respawned()
      ensures oxygenAlarm.running == (old(oxygenAlarm.running) && !Respawns(old(Stats()), called, isPlayer))
    {
      if called == Some(Callback.LoseOxygen) {
        LoseOxygen();
      } else if called == Some(Callback.RegenHp) {
        RegenHp();
      }
    }

    /**
     * `update_alarms`: each alarm running at the start of the frame is
     * updated, oxygen first, and the method it reports is run. The regen
     * alarm ends as `Alarm.update` leaves it; the oxygen alarm too, unless a
     * respawn stopped it; the stats are those of the two reported methods run
     * in that order.
     */
    method UpdateAlarms(now: int)
      requires Valid()
      modifies this, inventory, oxygenAlarm, regenAlarm
      ensures Valid()
      ensures var first := Report(old(oxygenAlarm.running), old(oxygenAlarm.startTime), oxygenAlarm.length, oxygenAlarm.callback, now);
        var second := Report(old(regenAlarm.running), old(regenAlarm.startTime), regenAlarm.length, regenAlarm.callback, now);
        var mid := Effect(old(Stats()), first, isPlayer, maxHp, maxOxygen);
        Stats() == Effect(mid, second, isPlayer, maxHp, maxOxygen)
      ensures (regenAlarm.running, regenAlarm.startTime)
        == Next(old(regenAlarm.running), old(regenAlarm.startTime), regenAlarm.length, regenAlarm.loop, now)
      ensures var first := Report(old(oxygenAlarm.running), old(oxygenAlarm.startTime), oxygenAlarm.length, oxygenAlarm.callback, now);
        var second := Report(old(regenAlarm.running), old(regenAlarm.startTime), regenAlarm.length, regenAlarm.callback, now);
        var mid := Effect(old(Stats()), first, isPlayer, maxHp, maxOxygen);
        var ox := Next(old(oxygenAlarm.running), old(oxygenAlarm.startTime), oxygenAlarm.length, oxygenAlarm.loop, now);
        oxygenAlarm.startTime == ox.1
        && oxygenAlarm.running == (ox.0 && !Respawns(old(Stats()), first, isPlayer) && !Respawns(mid, second, isPlayer))
    {
      var oxygenRunning, regenRunning := oxygenAlarm.running, regenAlarm.running;
      if oxygenRunning {
        var called := oxygenAlarm.Update(now);
        Dispatch(called);
      }
      if regenRunning {
        var called := regenAlarm.Update(now);
        Dispatch(called);
      }
    }

    /** `Colonist.update` without the drawing: biome, oxygen, HP, then the alarms. */
    method Update(now: int) returns (ok: bool)
      requires Valid()
      modifies this, inventory, oxygenAlarm, regenAlarm
      ensures Valid()
    {
      ok := UpdateCurrentBiome();
      if !ok {
        return;
      }
      CheckOxygenLevel(now);
      CheckHpLevel(now);
      UpdateAlarms(now);
    }
  }

  /**
   * With the alarms built as written, a frame's alarm updates never touch
   * oxygen or HP: an alarm without a callback reports nothing to run.
   */
  method AsWrittenAlarmUpdate(a: Alarm, now: int) returns (called: Option<Callback>)
    requires a.callback == OXYGEN_ALARM_AS_WRITTEN.callback || a.callback == REGEN_ALARM_AS_WRITTEN.callback
    modifies a
    ensures called.None?
  {
    AlarmCallbacksLost();
    called := a.Update(now);
  }
}
