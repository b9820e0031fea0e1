/**
 * The game controller: setup from the configuration, the tick loop that
 * runs until the ores are collected or the time budget is spent, and the
 * verdict appended to the log.
 */
module Game {
  import opened Wrappers
  import opened Text
  import opened Board
  import opened Rules
  import opened Script
  import opened Bombs
  import opened Planner
  import opened PusherEngine
  import opened Bombers
  import opened Factory
  import opened Log
  import opened Sweeps

  /**
   * The configuration the controller reads: the mode, the simulation period
   * and duration in milliseconds, the win threshold, the initial fuel, the
   * three placement lists and the two move scripts (`None` when absent).
   */
  datatype Config = Config(
    autoMode: bool, periodMs: int, durationMs: int, oresWinning: int, initialFuel: int,
    oreLocations: string, fuelLocations: string, boosterLocations: string,
    pusherMoves: Option<seq<string>>, bomberMoves: Option<seq<string>>)

  /** What `runApp` leaves: the log with its verdict, or a run that threw on a malformed number. */
  datatype RunOutcome = Completed(log: string) | Crashed

  const WonText: string := "You won"
  const LostText: string := "You lost"

  /** The loop guard: ores still missing and time left. */
  predicate KeepsRunning(collected: int, winning: int, remaining: int)
  {
    collected < winning && remaining >= 0
  }

  /** The verdict tests equality with the threshold, not "at least". */
  function Verdict(collected: int, winning: int): (v: string)
    ensures v == WonText <==> collected == winning
    ensures v == LostText <==> collected != winning
  {
    if collected == winning then WonText else LostText
  }

  /** A grid spawn found by the factory's last-of-kind lookup is that unit, on the grid. */
  lemma SpawnedUnit(e: seq<Actor>, g: Grid, k: Kind)
    requires LastFrom(e + AllGridSpawns(g), k, |e|).Some?
    ensures UnitAt(e + AllGridSpawns(g), LastFrom(e + AllGridSpawns(g), k, |e|).value, k)
  {
    var s := e + AllGridSpawns(g);
    var id := LastFrom(s, k, |e|).value;
    GridSpawnsShape(g, Span(g.height));
    assert s[id] == AllGridSpawns(g)[id - |e|];
  }

  /** The fuel a new `Pusher` actor starts with. */
  const PusherDefaultFuel := 100

  /**
   * What one pass of the loop body reads and changes: the board with its ore
   * count, the controller's pusher state, the Pusher actor's own copy, the
   * bombs and the script index.
   */
  datatype TickState = TickState(world: World, drive: Drive, script: Drive, bombs: seq<BombState>, index: nat)

  /** Both pusher states are valid and the unit slots hold units of their kind. */
  predicate TickReady(t: TickState, pusher: Option<nat>, bomber: Option<nat>)
  {
    DriveValid(t.drive) && DriveValid(t.script) &&
    (pusher.Some? ==> UnitAt(t.world.actors, pusher.value, Pusher)) &&
    (bomber.Some? ==> UnitAt(t.world.actors, bomber.value, Bomber))
  }

  /** The Pusher actor's copy after its scripted entry; with no pusher it is left alone. */
  function PusherScripted(t: TickState, pusher: Option<nat>, pusherMoves: Option<seq<string>>, finished: bool): Option<Drive>
    requires pusher.Some? ==> pusher.value < |t.world.actors|
  {
    if pusher.None? then Some(t.script) else ScriptedPlan(t.script, pusherMoves, t.index, t.world, pusher.value, finished)
  }

  /** The registry after the bomber's scripted entry; with no bomber it is left alone. */
  function BomberScripted(t: TickState, bomber: Option<nat>, bomberMoves: Option<seq<string>>): Option<seq<Actor>>
    requires bomber.Some? ==> UnitAt(t.world.actors, bomber.value, Bomber)
  {
    if bomber.None? then Some(t.world.actors) else BomberMove(t.world.actors, bomberMoves, t.index, BombCommand, bomber.value)
  }

  /**
   * The scripted moves of a tick: in auto mode the Pusher actor replans its
   * own copy and then the bomber follows its entry; otherwise nothing.
   * `None` where Java throws.
   */
  function Moves(autoMode: bool, t: TickState, pusher: Option<nat>, bomber: Option<nat>,
                 pusherMoves: Option<seq<string>>, bomberMoves: Option<seq<string>>, finished: bool): Option<(Drive, seq<Actor>)>
    requires TickReady(t, pusher, bomber)
  {
    if !autoMode then Some((t.script, t.world.actors))
    else
      var p := PusherScripted(t, pusher, pusherMoves, finished);
      if p.None? then None
      else
        var a := BomberScripted(t, bomber, bomberMoves);
        if a.None? then None else Some((p.value, a.value))
  }

  /** The controller's `executeNextPathStep` on its own copy; without a pusher only the fuel gate acts. */
  function ControllerStep(d: Drive, w: World, pusher: Option<nat>): (Drive, World)
    requires BoosterInvariant(d) && (pusher.Some? ==> UnitAt(w.actors, pusher.value, Pusher))
  {
    if pusher.Some? then (Step(d, w, pusher.value).drive, Step(d, w, pusher.value).world)
    else if d.fuel <= 0 then (d.(path := [], cursor := 0), w)
    else (d, w)
  }

  /**
   * The movement part of a tick on values: the scripted moves, the
   * controller's path step and the index advance; `None` where Java throws.
   */
  function MoveStep(autoMode: bool, t: TickState, pusher: Option<nat>, bomber: Option<nat>,
                    pusherMoves: Option<seq<string>>, bomberMoves: Option<seq<string>>, finished: bool): Option<TickState>
    requires TickReady(t, pusher, bomber)
  {
    var m := Moves(autoMode, t, pusher, bomber, pusherMoves, bomberMoves, finished);
    if m.None? then None
    else
      var s := ControllerStep(t.drive, t.world.(actors := m.value.1), pusher);
      Some(t.(world := s.1, drive := s.0, script := m.value.0, index := if autoMode then t.index + 1 else t.index))
  }

  /** The bomb sweep of a tick on values, when there is a bomber. */
  function SweepStep(t: TickState, bomber: Option<nat>): TickState
  {
    if bomber.None? then t
    else
      var swept := Sweep(t.bombs, t.world.actors);
      t.(world := t.world.(actors := swept.1), bombs := swept.0)
  }

  /** One pass of the loop body on values: the movement part, then the sweep. */
  function TickOf(autoMode: bool, t: TickState, pusher: Option<nat>, bomber: Option<nat>,
                  pusherMoves: Option<seq<string>>, bomberMoves: Option<seq<string>>, finished: bool): Option<TickState>
    requires TickReady(t, pusher, bomber)
  {
    var moved := MoveStep(autoMode, t, pusher, bomber, pusherMoves, bomberMoves, finished);
    if moved.None? then None else Some(SweepStep(moved.value, bomber))
  }

  /**
   * A tick keeps both pusher states valid and the units on the grid, keeps
   * the grid, collects at most one ore, advances the script index only in
   * auto mode, and leaves the bombs a sweep keeps; outside auto mode it
   * never throws.
   */
  lemma TickPreserves(autoMode: bool, t: TickState, pusher: Option<nat>, bomber: Option<nat>,
                      pusherMoves: Option<seq<string>>, bomberMoves: Option<seq<string>>, finished: bool)
    requires TickReady(t, pusher, bomber)
    ensures var r := TickOf(autoMode, t, pusher, bomber, pusherMoves, bomberMoves, finished);
      (!autoMode ==> r.Some?) &&
      (r.Some? ==>
        TickReady(r.value, pusher, bomber) && r.value.world.grid == t.world.grid &&
        t.world.collected <= r.value.world.collected <= t.world.collected + 1 &&
        r.value.index == t.index + (if autoMode then 1 else 0) &&
        r.value.bombs == if bomber.None? then t.bombs else SweptBombs(t.bombs))
  {
    MoveStepPreserves(autoMode, t, pusher, bomber, pusherMoves, bomberMoves, finished);
    var moved := MoveStep(autoMode, t, pusher, bomber, pusherMoves, bomberMoves, finished);
    if moved.Some? {
      SweepStepPreserves(moved.value, pusher, bomber);
    }
  }

  /** The scripted moves keep the Pusher actor's copy valid and the units on the grid. */
  lemma MovesPreserve(autoMode: bool, t: TickState, pusher: Option<nat>, bomber: Option<nat>,
                      pusherMoves: Option<seq<string>>, bomberMoves: Option<seq<string>>, finished: bool)
    requires TickReady(t, pusher, bomber)
    ensures var m := Moves(autoMode, t, pusher, bomber, pusherMoves, bomberMoves, finished);
      (!autoMode ==> m.Some?) &&
      (m.Some? ==> DriveValid(m.value.0) && Evolves(t.world.actors, m.value.1) &&
                   TickReady(t.(world := t.world.(actors := m.value.1), script := m.value.0), pusher, bomber))
  {
    var m := Moves(autoMode, t, pusher, bomber, pusherMoves, bomberMoves, finished);
    if m.Some? && autoMode && bomber.Some? {
      assert m.value.1 == BomberMove(t.world.actors, bomberMoves, t.index, BombCommand, bomber.value).value;
      if pusher.Some? {
        UnitAtEvolves(t.world.actors, m.value.1, pusher.value, Pusher);
      }
    }
  }

  /** The movement part keeps both copies valid, the units on the grid and the grid, and scores at most one ore. */
  lemma MoveStepPreserves(autoMode: bool, t: TickState, pusher: Option<nat>, bomber: Option<nat>,
                          pusherMoves: Option<seq<string>>, bomberMoves: Option<seq<string>>, finished: bool)
    requires TickReady(t, pusher, bomber)
    ensures var r := MoveStep(autoMode, t, pusher, bomber, pusherMoves, bomberMoves, finished);
      (!autoMode ==> r.Some?) &&
      (r.Some? ==>
        TickReady(r.value, pusher, bomber) && r.value.world.grid == t.world.grid && r.value.bombs == t.bombs &&
        t.world.collected <= r.value.world.collected <= t.world.collected + 1 &&
        r.value.index == t.index + (if autoMode then 1 else 0))
  {
    MovesPreserve(autoMode, t, pusher, bomber, pusherMoves, bomberMoves, finished);
    var m := Moves(autoMode, t, pusher, bomber, pusherMoves, bomberMoves, finished);
    if m.Some? && pusher.Some? {
      var w1 := t.world.(actors := m.value.1);
      StepKeepsInvariants(t.drive, w1, pusher.value);
      StepGate(t.drive, w1, pusher.value);
      if t.drive.fuel > 0 && t.drive.cursor < |t.drive.path| {
        StepScores(t.drive, w1, pusher.value);
      }
      if bomber.Some? {
        UnitAtEvolves(w1.actors, Step(t.drive, w1, pusher.value).world.actors, bomber.value, Bomber);
      }
    }
  }

  /** The sweep keeps the units on the grid, the grid and the count, and leaves the bombs `SweptBombs` keeps. */
  lemma SweepStepPreserves(t: TickState, pusher: Option<nat>, bomber: Option<nat>)
    requires TickReady(t, pusher, bomber)
    ensures var r := SweepStep(t, bomber);
      TickReady(r, pusher, bomber) && r.world.grid == t.world.grid && r.world.collected == t.world.collected &&
      r.drive == t.drive && r.script == t.script && r.index == t.index &&
      r.bombs == if bomber.None? then t.bombs else SweptBombs(t.bombs)
  {
    if bomber.Some? {
      SweepEvolves(t.bombs, t.world.actors);
      SweepBombsIgnoreBoard(t.bombs, t.world.actors);
      UnitAtEvolves(t.world.actors, Sweep(t.bombs, t.world.actors).1, bomber.value, Bomber);
      if pusher.Some? {
        UnitAtEvolves(t.world.actors, Sweep(t.bombs, t.world.actors).1, pusher.value, Pusher);
      }
    }
  }

  /**
   * The Pusher actor's copy is only ever replanned: its fuel and booster
   * never change, and outside auto mode it does not change at all.
   */
  lemma TickScriptOnlyPlans(autoMode: bool, t: TickState, pusher: Option<nat>, bomber: Option<nat>,
                            pusherMoves: Option<seq<string>>, bomberMoves: Option<seq<string>>, finished: bool)
    requires TickReady(t, pusher, bomber)
    ensures var r := TickOf(autoMode, t, pusher, bomber, pusherMoves, bomberMoves, finished);
      r.Some? ==>
        r.value.script.(path := t.script.path, cursor := t.script.cursor) == t.script &&
        (!autoMode ==> r.value.script == t.script)
  {
    if autoMode && pusher.Some? {
      var p := ScriptedPlan(t.script, pusherMoves, t.index, t.world, pusher.value, finished);
      assert p.Some? ==> p.value.(path := t.script.path, cursor := t.script.cursor) == t.script;
    }
  }

  /**
   * While the controller's own plan is used up, a tick moves nothing and
   * scores nothing: the scripted replanning goes into the Pusher actor's
   * copy, which the controller never steps.
   */
  lemma TickIdleController(autoMode: bool, t: TickState, pusher: Option<nat>, bomber: Option<nat>,
                           pusherMoves: Option<seq<string>>, bomberMoves: Option<seq<string>>, finished: bool)
    requires TickReady(t, pusher, bomber) && t.drive.cursor >= |t.drive.path|
    ensures var r := TickOf(autoMode, t, pusher, bomber, pusherMoves, bomberMoves, finished);
      r.Some? ==>
        r.value.world.collected == t.world.collected &&
        r.value.drive == (if t.drive.fuel <= 0 then t.drive.(path := [], cursor := 0) else t.drive) &&
        r.value.drive.cursor >= |r.value.drive.path|
  {
    var m := Moves(autoMode, t, pusher, bomber, pusherMoves, bomberMoves, finished);
    if m.Some? && pusher.Some? {
      StepGate(t.drive, t.world.(actors := m.value.1), pusher.value);
    }
  }

  class MineMaze {
    const grid: Grid
    const cfg: Config
    /** The controller's own plan, `pusherFuel` and booster, which `executeNextPathStep` drives. */
    const unit: PusherUnit
    /** The Pusher actor's own plan, fuel and booster, which its script replans. */
    const pusherActor: PusherUnit
    /** The bomber's script. */
    const bomberUnit: Bomber
    /** The board's actors and `oresCollected`. */
    var world: World
    /** The registry slots of the pusher and the bomber, `None` while there is none. */
    var pusher: Option<nat>
    var bomber: Option<nat>
    var finished: bool
    /** The time left, in milliseconds. */
    var gameDuration: int
    var autoMovementIndex: nat
    /** The bomber's bombs. */
    var bombs: seq<BombState>
    var logResult: string

    predicate Valid()
      reads this, unit, pusherActor
    {
      unit != pusherActor && unit.Valid() && pusherActor.Valid() && world.grid == grid &&
      (pusher.Some? ==> UnitAt(world.actors, pusher.value, Pusher)) &&
      (bomber.Some? ==> UnitAt(world.actors, bomber.value, Bomber))
    }

    /** The values a tick works on. */
    function Values(): TickState
      reads this, unit, pusherActor
    {
      TickState(world, unit.State(), pusherActor.State(), bombs, autoMovementIndex)
    }

    /** The constructor: an empty board, the configured fuel and duration, nothing collected. */
    constructor (cfg: Config, grid: Grid)
      ensures this.cfg == cfg && this.grid == grid
      ensures world == World(grid, [], 0) && pusher == None && bomber == None
      ensures !finished && gameDuration == cfg.durationMs && autoMovementIndex == 0
      ensures bombs == [] && logResult == ""
      ensures unit.State() == Drive([], 0, cfg.initialFuel, false, 0, false, East) && unit.controls == None
      ensures pusherActor.State() == Drive([], 0, PusherDefaultFuel, false, 0, false, East) && pusherActor.controls == None
      ensures bomberUnit.controls == None
      ensures fresh(unit) && fresh(pusherActor) && fresh(bomberUnit) && Valid()
    {
      this.cfg := cfg;
      this.grid := grid;
      world := World(grid, [], 0);
      pusher := None;
      bomber := None;
      finished := false;
      gameDuration := cfg.durationMs;
      autoMovementIndex := 0;
      bombs := [];
      logResult := "";
      unit := new PusherUnit(cfg.initialFuel);
      pusherActor := new PusherUnit(PusherDefaultFuel);
      bomberUnit := new Bomber();
    }

    /**
     * The setup at the start of `runApp`: the extras first, then the grid
     * actors; the last pusher and bomber spawned are the ones kept, each with
     * its script. `false` where a placement list makes Java throw.
     */
    method Setup() returns (ok: bool)
      requires world == World(grid, [], 0) && unit != pusherActor && unit.Valid() && pusherActor.Valid()
      modifies this`world, this`pusher, this`bomber, pusherActor`controls, bomberUnit`controls
      ensures ok <==> ExtraSpawns(cfg.oreLocations, cfg.fuelLocations, cfg.boosterLocations).Some?
      ensures ok ==> Valid()
      ensures ok ==>
        var e := ExtraSpawns(cfg.oreLocations, cfg.fuelLocations, cfg.boosterLocations).value;
        world == World(grid, e + AllGridSpawns(grid), 0) &&
        pusher == LastFrom(world.actors, Pusher, |e|) && bomber == LastFrom(world.actors, Bomber, |e|)
      ensures ok && pusher.Some? ==> pusherActor.controls == cfg.pusherMoves
      ensures ok && bomber.Some? ==> bomberUnit.controls == cfg.bomberMoves
    {
      var extras := SpawnExtra(cfg.oreLocations, cfg.fuelLocations, cfg.boosterLocations, []);
      ghost var e := ExtraSpawns(cfg.oreLocations, cfg.fuelLocations, cfg.boosterLocations);
      if extras.None? {
        assert e.None?;
        return false;
      }
      assert e.Some? && extras.value == [] + e.value;
      assert [] + e.value == e.value;
      var actors, p, b := Factory.SpawnGridActors(grid, extras.value);
      world := World(grid, actors, 0);
      pusher, bomber := p, b;
      if p.Some? {
        SpawnedUnit(e.value, grid, Pusher);
        pusherActor.SetupPusher(cfg.pusherMoves);
      }
      if b.Some? {
        SpawnedUnit(e.value, grid, Bomber);
        bomberUnit.SetupBomber(cfg.bomberMoves);
      }
      ok := true;
    }

    /**
     * `guidePusherToLocation`: with a pusher and an unfinished game, replace
     * the controller's plan by the path toward `target`; otherwise do nothing.
     */
    method GuidePusherToLocation(target: Pos)
      requires Valid()
      modifies unit
      ensures Valid() && unit.controls == old(unit.controls)
      ensures pusher.None? || finished ==> unit.State() == old(unit.State())
      ensures pusher.Some? && !finished ==>
        unit.State() == old(unit.State()).(path := PlanPath(PlanContextOf(old(unit.State()), world, pusher.value), target), cursor := 0)
    {
      if pusher.None? || finished {
        return;
      }
      unit.GuideToLocation(world, pusher.value, target, finished);
    }

    /**
     * `executeNextPathStep` of the controller: with no fuel the plan is
     * dropped even when there is no pusher; otherwise a pusher takes its
     * next step as `Step` describes; scoring adds at most one ore.
     */
    method ExecuteNextPathStep()
      requires Valid()
      modifies this`world, unit
      ensures Valid() && unit.controls == old(unit.controls) && world.grid == old(world.grid)
      ensures old(world.collected) <= world.collected <= old(world.collected) + 1
      ensures (unit.State(), world) == ControllerStep(old(unit.State()), old(world), pusher)
      ensures pusher.None? ==>
        world == old(world) &&
        unit.State() == if old(unit.fuel) <= 0 then old(unit.State()).(path := [], cursor := 0) else old(unit.State())
      ensures pusher.Some? ==>
        unit.State() == Step(old(unit.State()), old(world), pusher.value).drive &&
        world == Step(old(unit.State()), old(world), pusher.value).world
    {
      ghost var d := unit.State();
      if pusher.Some? {
        StepGate(d, world, pusher.value);
      }
      if unit.fuel <= 0 {
        unit.DiscardPlan();
        return;
      }
      if pusher.None? || unit.cursor >= |unit.path| {
        return;
      }
      StepScores(d, world, pusher.value);
      StepKeepsInvariants(d, world, pusher.value);
      ghost var r := Step(d, world, pusher.value);
      if bomber.Some? {
        UnitAtEvolves(world.actors, r.world.actors, bomber.value, Bomber);
      }
      var w, _ := unit.ExecuteNextPathStep(world, pusher.value);
      world := w;
    }

    /** `updateBombs`: without a bomber nothing happens; otherwise the sweep. */
    method UpdateBombs()
      requires Valid()
      modifies this`world, this`bombs
      ensures Valid() && world.grid == old(world.grid) && world.collected == old(world.collected)
      ensures bomber.None? ==> world == old(world) && bombs == old(bombs)
      ensures bomber.Some? ==> (bombs, world.actors) == Sweep(old(bombs), old(world.actors))
      ensures Values() == SweepStep(old(Values()), bomber)
    {
      if bomber.None? {
        return;
      }
      var bs, a := Sweeps.UpdateBombs(bombs, world.actors);
      SweepEvolves(bombs, world.actors);
      UnitAtEvolves(world.actors, a, bomber.value, Bomber);
      if pusher.Some? {
        UnitAtEvolves(world.actors, a, pusher.value, Pusher);
      }
      bombs := bs;
      world := world.(actors := a);
    }

    /** `updateLogResult`: append this tick's line, with the controller's fuel. */
    method UpdateLogResult()
      modifies this`logResult
      ensures logResult == old(logResult) + Snapshot(autoMovementIndex, world.actors, unit.fuel)
    {
      var line := LogLine(autoMovementIndex, world.actors, unit.fuel);
      logResult := logResult + line;
    }

    /** `pusher.autoMoveNext`: the Pusher actor replans its own copy. */
    method PusherScript() returns (ok: bool)
      requires Valid()
      modifies pusherActor
      ensures Valid() && pusherActor.controls == old(pusherActor.controls)
      ensures var p := PusherScripted(old(Values()), pusher, pusherActor.controls, finished);
        (ok <==> p.Some?) && (ok ==> pusherActor.State() == p.value)
    {
      ok := true;
      if pusher.Some? {
        ok := pusherActor.AutoMoveNext(autoMovementIndex, world, pusher.value, finished);
      }
    }

    /** `bomber.autoMoveNext`: the bomber follows its entry. */
    method BomberScript() returns (ok: bool)
      requires Valid()
      modifies this`world
      ensures Valid() && world.grid == old(world.grid) && world.collected == old(world.collected)
      ensures var a := BomberScripted(old(Values()), bomber, bomberUnit.controls);
        (ok <==> a.Some?) && (ok ==> world.actors == a.value)
    {
      ok := true;
      if bomber.Some? {
        var a, good, _ := bomberUnit.AutoMoveNext(autoMovementIndex, finished, BombCommand, world.actors, bomber.value);
        if !good {
          return false;
        }
        if pusher.Some? {
          UnitAtEvolves(world.actors, a, pusher.value, Pusher);
        }
        world := world.(actors := a);
      }
    }

    /**
     * In auto mode, the pusher's and the bomber's scripted moves for this
     * tick: the Pusher actor replans its own copy, so the controller's
     * plan is untouched; a malformed pusher entry stops before the bomber.
     */
    method AutoMoves() returns (ok: bool)
      requires Valid() && cfg.autoMode
      modifies this`world, pusherActor
      ensures Valid() && pusherActor.controls == old(pusherActor.controls)
      ensures world.grid == old(world.grid) && world.collected == old(world.collected)
      ensures var m := Moves(cfg.autoMode, old(Values()), pusher, bomber, pusherActor.controls, bomberUnit.controls, finished);
        (ok <==> m.Some?) && (ok ==> pusherActor.State() == m.value.0 && world.actors == m.value.1)
    {
      ghost var t := Values();
      ok := PusherScript();
      if !ok {
        return;
      }
      assert Values().world == t.world && Values().index == t.index;
      ok := BomberScript();
    }

    /** The movement part of a tick in auto mode: the scripts, the controller's path step and the index. */
    method ScriptedMoveUnits() returns (ok: bool)
      requires Valid() && cfg.autoMode
      modifies this`world, this`autoMovementIndex, unit, pusherActor
      ensures Valid() && world.grid == old(world.grid)
      ensures unit.controls == old(unit.controls) && pusherActor.controls == old(pusherActor.controls)
      ensures old(world.collected) <= world.collected <= old(world.collected) + 1
      ensures ok ==> autoMovementIndex == old(autoMovementIndex) + 1
      ensures ok <==> MoveStep(cfg.autoMode, old(Values()), pusher, bomber, pusherActor.controls, bomberUnit.controls, finished).Some?
      ensures ok ==> Values() == MoveStep(cfg.autoMode, old(Values()), pusher, bomber, pusherActor.controls, bomberUnit.controls, finished).value
    {
      ok := AutoMoves();
      if !ok {
        return;
      }
      ExecuteNextPathStep();
      NextIndex();
    }

    /** The movement part of a tick: in auto mode the scripts, the path step and the index; otherwise the path step. */
    method MoveUnits() returns (ok: bool)
      requires Valid()
      modifies this`world, this`autoMovementIndex, unit, pusherActor
      ensures Valid() && world.grid == old(world.grid)
      ensures unit.controls == old(unit.controls) && pusherActor.controls == old(pusherActor.controls)
      ensures old(world.collected) <= world.collected <= old(world.collected) + 1
      ensures ok ==> autoMovementIndex == old(autoMovementIndex) + (if cfg.autoMode then 1 else 0)
      ensures ok <==> MoveStep(cfg.autoMode, old(Values()), pusher, bomber, pusherActor.controls, bomberUnit.controls, finished).Some?
      ensures ok ==> Values() == MoveStep(cfg.autoMode, old(Values()), pusher, bomber, pusherActor.controls, bomberUnit.controls, finished).value
    {
      if cfg.autoMode {
        ok := ScriptedMoveUnits();
      } else {
        ExecuteNextPathStep();
        ok := true;
      }
    }

    /** `autoMovementIndex++`. */
    method NextIndex()
      modifies this`autoMovementIndex
      ensures autoMovementIndex == old(autoMovementIndex) + 1
    {
      autoMovementIndex := autoMovementIndex + 1;
    }

    /** `gameDuration -= getSimulationPeriod() / 1000.0`, in whole milliseconds. */
    method SpendPeriod()
      modifies this`gameDuration
      ensures gameDuration == old(gameDuration) - cfg.periodMs
    {
      gameDuration := gameDuration - cfg.periodMs;
    }

    /**
     * The state-changing part of a tick: the units move, then the bombs
     * tick; the new values are exactly `TickOf` of the old ones. `false`
     * where Java throws.
     */
    method Advance() returns (ok: bool)
      requires Valid()
      modifies this`world, this`autoMovementIndex, this`bombs, unit, pusherActor
      ensures Valid() && world.grid == old(world.grid)
      ensures unit.controls == old(unit.controls) && pusherActor.controls == old(pusherActor.controls)
      ensures old(world.collected) <= world.collected <= old(world.collected) + 1
      ensures ok ==> autoMovementIndex == old(autoMovementIndex) + (if cfg.autoMode then 1 else 0)
      ensures ok <==> TickOf(cfg.autoMode, old(Values()), pusher, bomber, pusherActor.controls, bomberUnit.controls, finished).Some?
      ensures ok ==> Values() == TickOf(cfg.autoMode, old(Values()), pusher, bomber, pusherActor.controls, bomberUnit.controls, finished).value
    {
      ok := MoveUnits();
      if !ok {
        return;
      }
      UpdateBombs();
    }

    /**
     * One pass of the loop body: the time budget shrinks by a period, the
     * units move, the bombs tick and the line is logged. `false` where Java
     * throws.
     */
    method RunTick() returns (ok: bool)
      requires Valid()
      modifies this`world, this`gameDuration, this`autoMovementIndex, this`bombs, this`logResult, unit, pusherActor
      ensures Valid() && world.grid == old(world.grid)
      ensures unit.controls == old(unit.controls) && pusherActor.controls == old(pusherActor.controls)
      ensures gameDuration == old(gameDuration) - cfg.periodMs
      ensures old(world.collected) <= world.collected <= old(world.collected) + 1
      ensures ok ==> autoMovementIndex == old(autoMovementIndex) + (if cfg.autoMode then 1 else 0)
      ensures ok <==> TickOf(cfg.autoMode, old(Values()), pusher, bomber, pusherActor.controls, bomberUnit.controls, finished).Some?
      ensures ok ==> Values() == TickOf(cfg.autoMode, old(Values()), pusher, bomber, pusherActor.controls, bomberUnit.controls, finished).value
      ensures ok ==> logResult == old(logResult) + Snapshot(autoMovementIndex, world.actors, unit.fuel)
    {
      SpendPeriod();
      ok := Advance();
      if !ok {
        return;
      }
      UpdateLogResult();
    }

    /**
     * The loop of `runApp`: tick while ores are missing and time is left.
     * The count stays within a non-negative threshold, and when the guard
     * fails at once no tick runs. `false` where Java throws.
     */
    method Play() returns (ok: bool)
      requires Valid() && cfg.periodMs > 0
      requires 0 <= world.collected && (cfg.oresWinning < 0 || world.collected <= cfg.oresWinning)
      modifies this`world, this`gameDuration, this`autoMovementIndex, this`bombs, this`logResult, unit, pusherActor
      ensures Valid()
      ensures ok ==> !KeepsRunning(world.collected, cfg.oresWinning, gameDuration)
      ensures 0 <= world.collected && (cfg.oresWinning >= 0 ==> world.collected <= cfg.oresWinning)
      ensures !KeepsRunning(old(world.collected), cfg.oresWinning, old(gameDuration)) ==>
        ok && world == old(world) && gameDuration == old(gameDuration) &&
        logResult == old(logResult) && autoMovementIndex == old(autoMovementIndex)
    {
      while world.collected < cfg.oresWinning && gameDuration >= 0
        invariant Valid()
        invariant 0 <= world.collected
        invariant cfg.oresWinning < 0 || world.collected <= cfg.oresWinning
        invariant !KeepsRunning(old(world.collected), cfg.oresWinning, old(gameDuration)) ==>
          world == old(world) && gameDuration == old(gameDuration) &&
          logResult == old(logResult) && autoMovementIndex == old(autoMovementIndex)
        decreases gameDuration
      {
        ok := RunTick();
        if !ok {
          return;
        }
      }
      ok := true;
    }

    /**
     * `runApp`: set up, then tick while ores are missing and time is left,
     * then append the verdict and mark the game finished. The count never
     * passes a non-negative threshold, so the verdict says "won" exactly
     * when the threshold was reached; a negative threshold stops the loop
     * before its first tick and the game is lost.
     */
    method RunApp() returns (outcome: RunOutcome)
      requires cfg.periodMs > 0
      requires world == World(grid, [], 0) && unit != pusherActor && unit.Valid() && pusherActor.Valid()
      requires !finished && gameDuration == cfg.durationMs
      modifies this, unit, pusherActor, bomberUnit
      ensures outcome.Completed? ==> finished && outcome.log == logResult
      ensures outcome.Completed? ==> !KeepsRunning(world.collected, cfg.oresWinning, gameDuration)
      ensures outcome.Completed? ==> 0 <= world.collected && (cfg.oresWinning >= 0 ==> world.collected <= cfg.oresWinning)
      ensures outcome.Completed? ==>
        |logResult| >= |Verdict(world.collected, cfg.oresWinning)| &&
        logResult[|logResult| - |Verdict(world.collected, cfg.oresWinning)|..] == Verdict(world.collected, cfg.oresWinning)
      ensures outcome.Completed? && cfg.oresWinning >= 0 ==>
        (logResult[|logResult| - |Verdict(world.collected, cfg.oresWinning)|..] == WonText <==> world.collected >= cfg.oresWinning)
      ensures outcome.Completed? && Verdict(world.collected, cfg.oresWinning) == LostText ==> gameDuration < 0 || cfg.oresWinning < 0
      ensures cfg.oresWinning < 0 && ExtraSpawns(cfg.oreLocations, cfg.fuelLocations, cfg.boosterLocations).Some? ==>
        outcome == Completed(old(logResult) + LostText) && gameDuration == cfg.durationMs &&
        autoMovementIndex == old(autoMovementIndex) && world.collected == 0
      ensures ExtraSpawns(cfg.oreLocations, cfg.fuelLocations, cfg.boosterLocations).None? ==> outcome == Crashed
    {
      var ok := Setup();
      if !ok {
        return Crashed;
      }
      ok := Play();
      if !ok {
        return Crashed;
      }
      var verdict := Verdict(world.collected, cfg.oresWinning);
      logResult := logResult + verdict;
      finished := true;
      outcome := Completed(logResult);
    }
  }
}
