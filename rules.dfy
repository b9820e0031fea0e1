/**
 * The read-only movement queries of the pusher and the ore-push rule, shared
 * verbatim by the controller copy (MineMaze.java) and the actor copy
 * (Pusher.java) of the step logic.
 */
module Rules {
  import opened Wrappers
  import opened Board

  /** The part of the game state the step logic reads and writes. */
  datatype World = World(grid: Grid, actors: seq<Actor>, collected: nat)

  /** `Integer.compare`, which returns -1, 0 or 1. */
  function Compare(a: int, b: int): int
  {
    if a < b then -1 else if a == b then 0 else 1
  }

  function Abs(a: int): nat { if a < 0 then -a else a }

  /**
   * The cell a booster push would move a rock at `loc` to, seen from a pusher
   * at `from`: one further along the line from the pusher through `loc`.
   */
  function RockPushCell(from: Pos, loc: Pos): Pos
  {
    Pos(loc.x + Compare(loc.x, from.x), loc.y + Compare(loc.y, from.y))
  }

  /** The booster's preview test: `loc` is in the pusher's row or column, but not its cell. */
  predicate InLine(from: Pos, loc: Pos)
  {
    Abs(Compare(loc.x, from.x)) + Abs(Compare(loc.y, from.y)) == 1
  }

  /**
   * `canMove` of the pusher: whether it may plan to enter `loc`. A rock is
   * passable only when a booster charge is ready and the cell behind the rock
   * is free of border, rocks, walls, hard rocks and the bomber.
   */
  predicate PusherCanMove(g: Grid, actors: seq<Actor>, from: Pos, ready: bool, charges: int, loc: Pos)
  {
    if IsBorder(g, loc) then false
    else if Has(actors, loc, Wall) || Has(actors, loc, HardRock) then false
    else if Has(actors, loc, Rock) then
      ready && charges > 0 && InLine(from, loc) &&
      var pushTo := RockPushCell(from, loc);
      !IsBorder(g, pushTo) && !Has(actors, pushTo, Rock) && !Has(actors, pushTo, Wall) &&
      !Has(actors, pushTo, HardRock) && !Has(actors, pushTo, Bomber)
    else !Has(actors, loc, Bomber)
  }

  /** Border, walls and hard rocks always block; the bomber blocks wherever no rock stands. */
  lemma PusherCanMoveBlocks(g: Grid, actors: seq<Actor>, from: Pos, ready: bool, charges: int, loc: Pos)
    ensures PusherCanMove(g, actors, from, ready, charges, loc) ==>
      !IsBorder(g, loc) && !Has(actors, loc, Wall) && !Has(actors, loc, HardRock) &&
      (Has(actors, loc, Rock) || !Has(actors, loc, Bomber))
    ensures (!IsBorder(g, loc) && !Has(actors, loc, Wall) && !Has(actors, loc, HardRock) &&
             !Has(actors, loc, Rock) && !Has(actors, loc, Bomber)) ==> PusherCanMove(g, actors, from, ready, charges, loc)
  {
  }

  /** A rock cell can be planned through only with a ready booster. */
  lemma RockNeedsBooster(g: Grid, actors: seq<Actor>, from: Pos, ready: bool, charges: int, loc: Pos)
    requires Has(actors, loc, Rock)
    ensures PusherCanMove(g, actors, from, ready, charges, loc) ==> ready && charges > 0 && InLine(from, loc)
  {
  }

  /** `getPushDirection`: the axis step from `from` to `to`, EAST when they coincide. */
  function PushDirection(from: Pos, to: Pos): Dir
  {
    if to.x > from.x then East
    else if to.x < from.x then West
    else if to.y > from.y then South
    else if to.y < from.y then North
    else East
  }

  /** For neighbouring cells the push direction leads from one to the other. */
  lemma PushDirectionLeads(from: Pos, to: Pos)
    requires Adjacent(from, to)
    ensures Neighbour(from, PushDirection(from, to)) == to
  {
  }

  /**
   * When the pusher stands next to the rock, the cell the preview checks is
   * the cell the booster push will move the rock to.
   */
  lemma RockPreviewMatchesPush(from: Pos, loc: Pos)
    requires Adjacent(from, loc)
    ensures InLine(from, loc)
    ensures RockPushCell(from, loc) == Neighbour(loc, PushDirection(from, loc))
  {
  }

  /**
   * `canOreMoveToLocation`: `dest` is on the board, not border, free of rocks,
   * walls, hard rocks, the pusher and the bomber, and holds no ore other than
   * `ore` itself.
   */
  predicate CanOreMoveTo(w: World, ore: nat, dest: Pos)
  {
    InGrid(w.grid, dest) && !IsBorder(w.grid, dest) &&
    !Has(w.actors, dest, Rock) && !Has(w.actors, dest, Wall) && !Has(w.actors, dest, HardRock) &&
    !Has(w.actors, dest, Pusher) && !Has(w.actors, dest, Bomber) &&
    var other := FindAt(w.actors, dest, Ore);
    other.None? || other.value == ore
  }

  /** An ore pushed off its own cell needs a destination free of every ore. */
  lemma CanOreMoveToElsewhere(w: World, ore: nat, dest: Pos)
    requires ore < |w.actors| && w.actors[ore].pos != dest
    ensures CanOreMoveTo(w, ore, dest) <==>
      InGrid(w.grid, dest) && !IsBorder(w.grid, dest) &&
      !Has(w.actors, dest, Rock) && !Has(w.actors, dest, Wall) && !Has(w.actors, dest, HardRock) &&
      !Has(w.actors, dest, Pusher) && !Has(w.actors, dest, Bomber) && !Has(w.actors, dest, Ore)
  {
  }

  /** The first half of `moveOreToLocation`: a target the ore stands on is shown again, and so is the ore. */
  function ShowLeftTarget(a: seq<Actor>, ore: nat): (r: seq<Actor>)
    requires ore < |a| && a[ore].kind == Ore
    ensures |r| == |a|
    ensures forall i :: 0 <= i < |a| ==>
      r[i].kind == a[i].kind && r[i].pos == a[i].pos && r[i].onGrid == a[i].onGrid
    ensures forall i :: 0 <= i < |a| && i != ore && a[i].kind != Target ==> r[i] == a[i]
    ensures r[ore].visible == (a[ore].visible || Has(a, a[ore].pos, Target))
    ensures Has(a, a[ore].pos, Target) ==> r[FindAt(a, a[ore].pos, Target).value].visible
  {
    match FindAt(a, a[ore].pos, Target)
    case Some(t) => a[t := a[t].(visible := true)][ore := a[ore].(visible := true)]
    case None => a
  }

  /**
   * `moveOreToLocation`: the left target and the ore are shown, the ore moves,
   * and landing on a target counts one ore and hides it.
   */
  function MoveOre(w: World, ore: nat, dest: Pos): (r: World)
    requires ore < |w.actors| && w.actors[ore].kind == Ore
    ensures r.grid == w.grid && |r.actors| == |w.actors|
    ensures r.actors[ore].pos == dest
    ensures forall i :: 0 <= i < |w.actors| ==>
      r.actors[i].kind == w.actors[i].kind && r.actors[i].onGrid == w.actors[i].onGrid
    ensures forall i :: 0 <= i < |w.actors| && i != ore ==> r.actors[i].pos == w.actors[i].pos
    ensures forall i :: 0 <= i < |w.actors| && i != ore && w.actors[i].kind != Target ==> r.actors[i] == w.actors[i]
    ensures r.collected == w.collected + (if Has(w.actors, dest, Target) then 1 else 0)
    ensures Has(w.actors, dest, Target) ==> !r.actors[ore].visible
    ensures !Has(w.actors, dest, Target) ==>
      r.actors[ore].visible == (w.actors[ore].visible || Has(w.actors, w.actors[ore].pos, Target))
    ensures Has(w.actors, w.actors[ore].pos, Target) ==>
      r.actors[FindAt(w.actors, w.actors[ore].pos, Target).value].visible
  {
    var a1 := ShowLeftTarget(w.actors, ore);
    var a2 := a1[ore := a1[ore].(pos := dest)];
    FindAtSame(w.actors, a2, dest, Target);
    if Has(a2, dest, Target) then World(w.grid, a2[ore := a2[ore].(visible := false)], w.collected + 1)
    else World(w.grid, a2, w.collected)
  }

  /**
   * `canMoveWithOrePushing`: whether the pusher at `from` may enter `next`,
   * performing the ore push it needs. A refusal changes nothing.
   */
  function OrePush(w: World, from: Pos, next: Pos): (r: (bool, World))
    ensures !r.0 ==> r.1 == w
    ensures r.0 <==>
      !IsBorder(w.grid, next) && !Has(w.actors, next, Wall) && !Has(w.actors, next, HardRock) &&
      !Has(w.actors, next, Rock) && !Has(w.actors, next, Bomber) &&
      (!Has(w.actors, next, Ore) ||
       CanOreMoveTo(w, FindAt(w.actors, next, Ore).value, Neighbour(next, PushDirection(from, next))))
    ensures r.0 && !Has(w.actors, next, Ore) ==> r.1 == w
    ensures r.0 && Has(w.actors, next, Ore) ==>
      r.1 == MoveOre(w, FindAt(w.actors, next, Ore).value, Neighbour(next, PushDirection(from, next)))
  {
    if IsBorder(w.grid, next) then (false, w)
    else if Has(w.actors, next, Wall) || Has(w.actors, next, HardRock) ||
            Has(w.actors, next, Rock) || Has(w.actors, next, Bomber) then (false, w)
    else match FindAt(w.actors, next, Ore)
      case Some(ore) =>
        var dest := Neighbour(next, PushDirection(from, next));
        if CanOreMoveTo(w, ore, dest) then (true, MoveOre(w, ore, dest)) else (false, w)
      case None => (true, w)
  }

  /** The collected count never falls and rises by at most one per push. */
  lemma OrePushCounts(w: World, from: Pos, next: Pos)
    ensures var r := OrePush(w, from, next).1;
      w.collected <= r.collected <= w.collected + 1 && r.grid == w.grid && Evolves(w.actors, r.actors)
  {
  }

  /**
   * A successful push of an ore onto a target counts exactly one ore and hides
   * it; a push onto any other cell leaves the count alone.
   */
  lemma OrePushScores(w: World, from: Pos, next: Pos)
    requires Has(w.actors, next, Ore)
    requires OrePush(w, from, next).0
    ensures var dest := Neighbour(next, PushDirection(from, next));
      var ore := FindAt(w.actors, next, Ore).value;
      var r := OrePush(w, from, next).1;
      r.actors[ore].pos == dest &&
      (r.collected == w.collected + 1 <==> Has(w.actors, dest, Target)) &&
      (Has(w.actors, dest, Target) ==> !r.actors[ore].visible)
  {
  }

  /**
   * `Machine.canMove`: blocked by the border colour (only once a border
   * colour has been set), walls, rocks and hard rocks.
   */
  predicate MachineCanMove(g: Grid, actors: seq<Actor>, borderSet: bool, loc: Pos)
  {
    !(borderSet && IsBorder(g, loc)) &&
    !Has(actors, loc, Wall) && !Has(actors, loc, Rock) && !Has(actors, loc, HardRock)
  }

  /** Ores and bombers never block a machine. */
  lemma MachineIgnoresOreAndBomber(g: Grid, actors: seq<Actor>, borderSet: bool, loc: Pos, a: Actor)
    requires a.kind == Ore || a.kind == Bomber
    ensures MachineCanMove(g, actors + [a], borderSet, loc) == MachineCanMove(g, actors, borderSet, loc)
  {
    HasAppend(actors, a, loc, Wall);
    HasAppend(actors, a, loc, Rock);
    HasAppend(actors, a, loc, HardRock);
  }
}
