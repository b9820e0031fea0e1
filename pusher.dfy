/**
 * The pusher: fuel, the three-charge booster, and the execution of one step
 * of a planned path (`Pusher.executeNextPathStep`). The step is first given as
 * a function on values (`Step`) whose properties are lemmas; the class
 * `PusherUnit` holds the pusher's own fields and its methods are proved to
 * perform exactly that step.
 */
module PusherEngine {
  import opened Wrappers
  import opened Board
  import opened Rules
  import opened Planner
  import opened Text
  import opened Script

  const FuelRefillAmount: int := 100
  const FullCharges: int := 3

  /** The pusher's own state: its plan, the next step in it, fuel, booster and facing. */
  datatype Drive = Drive(path: seq<Pos>, cursor: nat, fuel: int, ready: bool,
                         charges: int, activated: bool, facing: Dir)

  /** The booster is ready exactly while it has charges left, and holds at most three. */
  predicate BoosterInvariant(d: Drive)
  {
    0 <= d.charges <= FullCharges && (d.ready <==> d.charges > 0)
  }

  predicate DriveValid(d: Drive)
  {
    d.cursor <= |d.path| && BoosterInvariant(d)
  }

  /** What one call of `executeNextPathStep` did. */
  datatype Outcome = OutOfFuel | NoStepLeft | Moved | Refused

  datatype StepResult = StepResult(drive: Drive, world: World, outcome: Outcome)

  /** The direction the pusher turns to before stepping from `cur` to `next`; unchanged when they coincide. */
  function Facing(cur: Pos, next: Pos, facing: Dir): (r: Dir)
    ensures cur == next ==> r == facing
  {
    if next.x > cur.x then East
    else if next.x < cur.x then West
    else if next.y > cur.y then South
    else if next.y < cur.y then North
    else facing
  }

  /** On an adjacent step the pusher faces the cell it enters, which is also the ore-push direction. */
  lemma FacingLeads(cur: Pos, next: Pos, facing: Dir)
    requires Adjacent(cur, next)
    ensures Facing(cur, next, facing) == PushDirection(cur, next)
    ensures Neighbour(cur, Facing(cur, next, facing)) == next
  {
    PushDirectionLeads(cur, next);
  }

  /** One booster charge spent on a rock push; the first push from a full booster marks it activated. */
  function Spend(d: Drive): (r: Drive)
    requires BoosterInvariant(d) && d.charges > 0
    ensures BoosterInvariant(r)
    ensures r.charges == d.charges - 1
    ensures r.activated <==> d.activated || d.charges == FullCharges
    ensures r.path == d.path && r.cursor == d.cursor && r.fuel == d.fuel && r.facing == d.facing
  {
    d.(activated := d.activated || d.charges == FullCharges,
       charges := d.charges - 1,
       ready := d.charges - 1 != 0)
  }

  /** Whether the booster pushes the rock found on `next` one cell further in the facing direction. */
  predicate RockPushed(d: Drive, w: World, id: nat, next: Pos)
    requires id < |w.actors|
  {
    Has(w.actors, next, Rock) && d.ready && d.charges > 0 &&
    PusherCanMove(w.grid, w.actors, w.actors[id].pos, d.ready, d.charges, Neighbour(next, d.facing))
  }

  /** The booster phase of a step: move the rock on `next` and spend a charge, or change nothing. */
  function BoosterPush(d: Drive, w: World, id: nat, next: Pos): (r: (Drive, World))
    requires BoosterInvariant(d) && id < |w.actors|
    ensures r.1.grid == w.grid && r.1.collected == w.collected && |r.1.actors| == |w.actors|
    ensures !RockPushed(d, w, id, next) ==> r == (d, w)
    ensures RockPushed(d, w, id, next) ==>
      var rock := FindAt(w.actors, next, Rock).value;
      r.0 == Spend(d) &&
      r.1.actors[rock] == w.actors[rock].(pos := Neighbour(next, d.facing)) &&
      forall i :: 0 <= i < |w.actors| && i != rock ==> r.1.actors[i] == w.actors[i]
  {
    if RockPushed(d, w, id, next) then
      var rock := FindAt(w.actors, next, Rock).value;
      (Spend(d), w.(actors := w.actors[rock := w.actors[rock].(pos := Neighbour(next, d.facing))]))
    else (d, w)
  }

  /** Stepping on a fuel canister uses up the first one on the cell and refills by 100. */
  function PickUpFuel(fuel: int, a: seq<Actor>, at: Pos): (r: (int, seq<Actor>))
    ensures r.0 == fuel + (if Has(a, at, Fuel) then FuelRefillAmount else 0)
    ensures |r.1| == |a|
    ensures Has(a, at, Fuel) ==>
      var f := FindAt(a, at, Fuel).value;
      r.1[f] == a[f].(onGrid := false) && forall i :: 0 <= i < |a| && i != f ==> r.1[i] == a[i]
    ensures !Has(a, at, Fuel) ==> r.1 == a
  {
    match FindAt(a, at, Fuel)
    case Some(f) => (fuel + FuelRefillAmount, a[f := a[f].(onGrid := false)])
    case None => (fuel, a)
  }

  /**
   * The booster pickup rule: a booster on the cell is taken only when the
   * booster is spent (not ready, no charges) or has been activated; taking it
   * refills three charges and clears the activated flag.
   */
  predicate TakesBooster(d: Drive, a: seq<Actor>, at: Pos)
  {
    Has(a, at, Booster) && ((!d.ready && d.charges == 0) || d.activated)
  }

  function PickUpBooster(d: Drive, a: seq<Actor>, at: Pos): (r: (Drive, seq<Actor>))
    requires BoosterInvariant(d)
    ensures BoosterInvariant(r.0) && |r.1| == |a|
    ensures TakesBooster(d, a, at) ==>
      var b := FindAt(a, at, Booster).value;
      r.0 == d.(ready := true, charges := FullCharges, activated := false) &&
      r.1[b] == a[b].(onGrid := false) && forall i :: 0 <= i < |a| && i != b ==> r.1[i] == a[i]
    ensures !TakesBooster(d, a, at) ==> r == (d, a)
  {
    if TakesBooster(d, a, at) then
      var b := FindAt(a, at, Booster).value;
      (d.(ready := true, charges := FullCharges, activated := false), a[b := a[b].(onGrid := false)])
    else (d, a)
  }

  /** Under the booster invariant the pickup guard is simply "no charges left, or activated". */
  lemma PickupGuard(d: Drive, a: seq<Actor>, at: Pos)
    requires BoosterInvariant(d)
    ensures TakesBooster(d, a, at) <==> Has(a, at, Booster) && (d.charges == 0 || d.activated)
  {
  }

  /** The first target on the cell the pusher enters becomes visible; nothing else changes. */
  function RevealTarget(a: seq<Actor>, at: Pos): (r: seq<Actor>)
    ensures |r| == |a|
    ensures Has(a, at, Target) ==>
      var t := FindAt(a, at, Target).value;
      r[t] == a[t].(visible := true) && forall i :: 0 <= i < |a| && i != t ==> r[i] == a[i]
    ensures !Has(a, at, Target) ==> r == a
  {
    match FindAt(a, at, Target)
    case Some(t) => a[t := a[t].(visible := true)]
    case None => a
  }

  /** The pickups on the cell the pusher has entered: fuel, then booster, then the target is shown. */
  function Collect(d: Drive, a: seq<Actor>, at: Pos): (r: (Drive, seq<Actor>))
    requires BoosterInvariant(d)
  {
    var f := PickUpFuel(d.fuel, a, at);
    var b := PickUpBooster(d.(fuel := f.0), f.1, at);
    (b.0, RevealTarget(b.1, at))
  }

  /** One unit of fuel burnt by a move; an empty tank stays empty. */
  function Burn(d: Drive): (r: Drive)
  {
    d.(fuel := if d.fuel > 0 then d.fuel - 1 else d.fuel)
  }

  /** Past one step of the plan; with the tank empty the plan is dropped. */
  function Advance(d: Drive): (r: Drive)
  {
    var d4 := d.(cursor := d.cursor + 1);
    if d4.fuel == 0 then d4.(path := [], cursor := 0) else d4
  }

  /** The pusher has entered `next`: burn fuel, collect, advance the cursor. */
  function Arrive(d: Drive, w: World, id: nat, next: Pos): (r: (Drive, World))
    requires BoosterInvariant(d) && id < |w.actors|
  {
    var c := Collect(Burn(d), w.actors[id := w.actors[id].(pos := next)], next);
    (Advance(c.0), w.(actors := c.1))
  }

  /** After the booster phase: the ore-pushing move from `cur` into `next`, or a refusal that drops the plan. */
  function Enter(d: Drive, w: World, id: nat, cur: Pos, next: Pos): (r: StepResult)
    requires BoosterInvariant(d) && id < |w.actors|
  {
    var push := OrePush(w, cur, next);
    if push.0 then
      var arr := Arrive(d, push.1, id, next);
      StepResult(arr.0, arr.1, Moved)
    else StepResult(d.(path := [], cursor := 0), w, Refused)
  }

  /** `executeNextPathStep` on values. */
  function Step(d: Drive, w: World, id: nat): (r: StepResult)
    requires BoosterInvariant(d) && UnitAt(w.actors, id, Pusher)
  {
    if d.fuel <= 0 then StepResult(d.(path := [], cursor := 0), w, OutOfFuel)
    else if d.cursor >= |d.path| then StepResult(d, w, NoStepLeft)
    else
      var next := d.path[d.cursor];
      var cur := w.actors[id].pos;
      var pre := BoosterPush(d.(facing := Facing(cur, next, d.facing)), w, id, next);
      Enter(pre.0, pre.1, id, cur, next)
  }

  /** `b` differs from `a` at most in actors of kinds other than `k`, and no actor changes kind. */
  predicate Untouched(a: seq<Actor>, b: seq<Actor>, k: Kind)
  {
    |a| == |b| &&
    forall i :: 0 <= i < |a| ==> b[i].kind == a[i].kind && (a[i].kind == k ==> b[i] == a[i])
  }

  lemma UntouchedFind(a: seq<Actor>, b: seq<Actor>, k: Kind, p: Pos)
    requires Untouched(a, b, k)
    ensures FindAt(a, p, k) == FindAt(b, p, k)
  {
    FindAtSame(a, b, p, k);
  }

  lemma UntouchedTrans(a: seq<Actor>, b: seq<Actor>, c: seq<Actor>, k: Kind)
    requires Untouched(a, b, k) && Untouched(b, c, k)
    ensures Untouched(a, c, k)
  {
  }

  lemma BoosterPushUntouched(d: Drive, w: World, id: nat, next: Pos, k: Kind)
    requires BoosterInvariant(d) && id < |w.actors| && k != Rock
    ensures Untouched(w.actors, BoosterPush(d, w, id, next).1.actors, k)
  {
  }

  lemma OrePushUntouched(w: World, from: Pos, next: Pos, k: Kind)
    requires k != Ore && k != Target
    ensures Untouched(w.actors, OrePush(w, from, next).1.actors, k)
  {
  }

  lemma UntouchedUpdate(a: seq<Actor>, i: nat, x: Actor, k: Kind)
    requires i < |a| && x.kind == a[i].kind && a[i].kind != k
    ensures Untouched(a, a[i := x], k)
  {
  }

  /** Each pickup changes only actors of its own kind, and only by taking them off the grid or showing them. */
  lemma PickUpFuelKeeps(fuel: int, a: seq<Actor>, at: Pos, k: Kind)
    ensures Evolves(a, PickUpFuel(fuel, a, at).1)
    ensures k != Fuel ==> Untouched(a, PickUpFuel(fuel, a, at).1, k)
  {
    if Has(a, at, Fuel) {
      var i := FindAt(a, at, Fuel).value;
      assert PickUpFuel(fuel, a, at).1 == a[i := a[i].(onGrid := false)];
      EvolvesUpdate(a, i, a[i].(onGrid := false));
      if k != Fuel { UntouchedUpdate(a, i, a[i].(onGrid := false), k); }
    }
  }

  lemma PickUpBoosterKeeps(d: Drive, a: seq<Actor>, at: Pos, k: Kind)
    requires BoosterInvariant(d)
    ensures Evolves(a, PickUpBooster(d, a, at).1)
    ensures k != Booster ==> Untouched(a, PickUpBooster(d, a, at).1, k)
  {
    if TakesBooster(d, a, at) {
      var i := FindAt(a, at, Booster).value;
      assert PickUpBooster(d, a, at).1 == a[i := a[i].(onGrid := false)];
      EvolvesUpdate(a, i, a[i].(onGrid := false));
      if k != Booster { UntouchedUpdate(a, i, a[i].(onGrid := false), k); }
    }
  }

  lemma RevealTargetKeeps(a: seq<Actor>, at: Pos, k: Kind)
    ensures Evolves(a, RevealTarget(a, at))
    ensures k != Target ==> Untouched(a, RevealTarget(a, at), k)
  {
    if Has(a, at, Target) {
      var i := FindAt(a, at, Target).value;
      assert RevealTarget(a, at) == a[i := a[i].(visible := true)];
      EvolvesUpdate(a, i, a[i].(visible := true));
      if k != Target { UntouchedUpdate(a, i, a[i].(visible := true), k); }
    }
  }

  /** The pickups change only fuel, boosters and targets, and never add, re-kind or restore an actor. */
  lemma CollectKeeps(d: Drive, a: seq<Actor>, at: Pos, k: Kind)
    requires BoosterInvariant(d)
    ensures var r := Collect(d, a, at).1;
      Evolves(a, r) && (k != Fuel && k != Booster && k != Target ==> Untouched(a, r, k))
  {
    var f := PickUpFuel(d.fuel, a, at);
    var b := PickUpBooster(d.(fuel := f.0), f.1, at);
    var t := RevealTarget(b.1, at);
    PickUpFuelKeeps(d.fuel, a, at, k);
    PickUpBoosterKeeps(d.(fuel := f.0), f.1, at, k);
    RevealTargetKeeps(b.1, at, k);
    EvolvesTrans(a, f.1, b.1);
    EvolvesTrans(a, b.1, t);
    if k != Fuel && k != Booster && k != Target {
      UntouchedTrans(a, f.1, b.1, k);
      UntouchedTrans(a, b.1, t, k);
    }
  }

  /** Entering a cell changes only the pusher and pickups: fuel, boosters and targets on that cell. */
  lemma ArriveKeeps(d: Drive, w: World, id: nat, next: Pos, k: Kind)
    requires BoosterInvariant(d) && UnitAt(w.actors, id, Pusher)
    ensures var a := Arrive(d, w, id, next).1.actors;
      Evolves(w.actors, a) &&
      (k != Pusher && k != Fuel && k != Booster && k != Target ==> Untouched(w.actors, a, k))
  {
    var a1 := w.actors[id := w.actors[id].(pos := next)];
    var d1 := Burn(d);
    EvolvesUpdate(w.actors, id, w.actors[id].(pos := next));
    CollectKeeps(d1, a1, next, k);
    EvolvesTrans(w.actors, a1, Collect(d1, a1, next).1);
    if k != Pusher && k != Fuel && k != Booster && k != Target {
      UntouchedUpdate(w.actors, id, w.actors[id].(pos := next), k);
      UntouchedTrans(w.actors, a1, Collect(d1, a1, next).1, k);
    }
  }

  /** Entering a cell burns one unit of fuel (none when already empty) and refills on a canister. */
  lemma ArriveFuel(d: Drive, w: World, id: nat, next: Pos)
    requires BoosterInvariant(d) && UnitAt(w.actors, id, Pusher)
    ensures var r := Arrive(d, w, id, next);
      r.0.fuel == (if d.fuel > 0 then d.fuel - 1 else d.fuel) + (if Has(w.actors, next, Fuel) then FuelRefillAmount else 0) &&
      (r.0.fuel == 0 ==> r.0.path == [] && r.0.cursor == 0) &&
      BoosterInvariant(r.0) && r.0.facing == d.facing
  {
    var a1 := w.actors[id := w.actors[id].(pos := next)];
    UntouchedUpdate(w.actors, id, w.actors[id].(pos := next), Fuel);
    UntouchedFind(w.actors, a1, Fuel, next);
  }

  /** Entering a cell moves the pusher there and keeps the grid, the score and the registry's shape. */
  lemma ArriveShape(d: Drive, w: World, id: nat, next: Pos)
    requires BoosterInvariant(d) && UnitAt(w.actors, id, Pusher)
    ensures var r := Arrive(d, w, id, next);
      r.1.actors[id] == w.actors[id].(pos := next) &&
      r.1.grid == w.grid && r.1.collected == w.collected && Evolves(w.actors, r.1.actors)
  {
    ArriveKeeps(d, w, id, next, Pusher);
  }

  /** Entering a cell can only refill the booster, never spend it. */
  lemma ArriveCharges(d: Drive, w: World, id: nat, next: Pos)
    requires BoosterInvariant(d) && UnitAt(w.actors, id, Pusher)
    ensures var r := Arrive(d, w, id, next);
      r.0.charges >= d.charges &&
      (r.0.charges != d.charges ==> r.0.charges == FullCharges && r.0.ready && !r.0.activated)
  {
  }

  /** The fuel gate and the end of the plan: no fuel drops the plan; no step left does nothing. */
  lemma StepGate(d: Drive, w: World, id: nat)
    requires BoosterInvariant(d) && UnitAt(w.actors, id, Pusher)
    ensures var r := Step(d, w, id);
      (r.outcome == OutOfFuel <==> d.fuel <= 0) &&
      (r.outcome == NoStepLeft <==> d.fuel > 0 && d.cursor >= |d.path|) &&
      (r.outcome == OutOfFuel ==> r.world == w && r.drive == d.(path := [], cursor := 0)) &&
      (r.outcome == NoStepLeft ==> r.world == w && r.drive == d)
  {
  }

  /** The move phase keeps the cursor within the plan, the booster invariant, the pusher on the grid and the registry's shape. */
  lemma EnterKeepsInvariants(d: Drive, w: World, id: nat, cur: Pos, next: Pos)
    requires DriveValid(d) && d.cursor < |d.path| && UnitAt(w.actors, id, Pusher)
    ensures var r := Enter(d, w, id, cur, next);
      DriveValid(r.drive) && UnitAt(r.world.actors, id, Pusher) &&
      Evolves(w.actors, r.world.actors) && r.world.grid == w.grid
  {
    OrePushCounts(w, cur, next);
    var push := OrePush(w, cur, next);
    if push.0 {
      UnitAtEvolves(w.actors, push.1.actors, id, Pusher);
      ArriveFuel(d, push.1, id, next);
      ArriveShape(d, push.1, id, next);
      EvolvesTrans(w.actors, push.1.actors, Arrive(d, push.1, id, next).1.actors);
    }
  }

  /** A step keeps the cursor within the plan, the booster invariant, the pusher on the grid and the registry's shape. */
  lemma StepKeepsInvariants(d: Drive, w: World, id: nat)
    requires DriveValid(d) && UnitAt(w.actors, id, Pusher)
    ensures var r := Step(d, w, id);
      DriveValid(r.drive) && UnitAt(r.world.actors, id, Pusher) &&
      Evolves(w.actors, r.world.actors) && r.world.grid == w.grid
  {
    if d.fuel > 0 && d.cursor < |d.path| {
      var next := d.path[d.cursor];
      var cur := w.actors[id].pos;
      var pre := BoosterPush(d.(facing := Facing(cur, next, d.facing)), w, id, next);
      assert Evolves(w.actors, pre.1.actors);
      EnterKeepsInvariants(pre.0, pre.1, id, cur, next);
      EvolvesTrans(w.actors, pre.1.actors, Step(d, w, id).world.actors);
    }
  }

  /** Only a move changes the pusher, and a move puts it on the planned cell. */
  lemma StepMovesPusher(d: Drive, w: World, id: nat)
    requires BoosterInvariant(d) && UnitAt(w.actors, id, Pusher)
    ensures var r := Step(d, w, id);
      (r.outcome == Moved ==> d.fuel > 0 && d.cursor < |d.path| && r.world.actors[id].pos == d.path[d.cursor]) &&
      (r.outcome != Moved ==> r.world.actors[id] == w.actors[id])
  {
    if d.fuel > 0 && d.cursor < |d.path| {
      var next := d.path[d.cursor];
      var cur := w.actors[id].pos;
      var pre := BoosterPush(d.(facing := Facing(cur, next, d.facing)), w, id, next);
      var push := OrePush(pre.1, cur, next);
      if push.0 {
        ArriveShape(pre.0, push.1, id, next);
      }
    }
  }

  /**
   * Fuel accounting: a move costs one unit and a canister on the entered cell
   * adds 100; nothing else changes the fuel; and once the fuel is gone the
   * plan is gone.
   */
  lemma StepFuel(d: Drive, w: World, id: nat)
    requires BoosterInvariant(d) && UnitAt(w.actors, id, Pusher)
    ensures var r := Step(d, w, id);
      (r.outcome == Moved ==>
        r.drive.fuel == d.fuel - 1 + (if Has(w.actors, d.path[d.cursor], Fuel) then FuelRefillAmount else 0)) &&
      (r.outcome != Moved ==> r.drive.fuel == d.fuel) &&
      (r.drive.fuel <= 0 ==> r.drive.path == [] && r.drive.cursor == 0) &&
      (d.fuel >= 0 ==> r.drive.fuel >= 0)
  {
    if d.fuel > 0 && d.cursor < |d.path| {
      var next := d.path[d.cursor];
      var cur := w.actors[id].pos;
      var pre := BoosterPush(d.(facing := Facing(cur, next, d.facing)), w, id, next);
      var push := OrePush(pre.1, cur, next);
      if push.0 {
        BoosterPushUntouched(d.(facing := Facing(cur, next, d.facing)), w, id, next, Fuel);
        OrePushUntouched(pre.1, cur, next, Fuel);
        UntouchedTrans(w.actors, pre.1.actors, push.1.actors, Fuel);
        UntouchedFind(w.actors, push.1.actors, Fuel, next);
        ArriveFuel(pre.0, push.1, id, next);
      }
    }
  }

  /** A refused step drops the plan and leaves everything but a boosted rock as it was. */
  lemma StepRefused(d: Drive, w: World, id: nat)
    requires BoosterInvariant(d) && UnitAt(w.actors, id, Pusher)
    ensures var r := Step(d, w, id);
      r.outcome == Refused ==>
        r.drive.path == [] && r.drive.cursor == 0 && r.world.collected == w.collected &&
        forall i :: 0 <= i < |w.actors| && w.actors[i].kind != Rock ==> r.world.actors[i] == w.actors[i]
  {
  }

  /**
   * Scoring: a step adds at most one collected ore, and adds one exactly when
   * the pusher moves onto an ore and pushes it onto a target.
   */
  lemma StepScores(d: Drive, w: World, id: nat)
    requires BoosterInvariant(d) && UnitAt(w.actors, id, Pusher)
    requires d.fuel > 0 && d.cursor < |d.path|
    ensures var r := Step(d, w, id);
      var next := d.path[d.cursor];
      var dest := Neighbour(next, PushDirection(w.actors[id].pos, next));
      w.collected <= r.world.collected <= w.collected + 1 &&
      (r.world.collected == w.collected + 1 <==>
        r.outcome == Moved && Has(w.actors, next, Ore) && Has(w.actors, dest, Target))
  {
    var next := d.path[d.cursor];
    var cur := w.actors[id].pos;
    var pre := BoosterPush(d.(facing := Facing(cur, next, d.facing)), w, id, next);
    BoosterPushUntouched(d.(facing := Facing(cur, next, d.facing)), w, id, next, Ore);
    BoosterPushUntouched(d.(facing := Facing(cur, next, d.facing)), w, id, next, Target);
    UntouchedFind(w.actors, pre.1.actors, Ore, next);
    UntouchedFind(w.actors, pre.1.actors, Target, Neighbour(next, PushDirection(cur, next)));
    OrePushCounts(pre.1, cur, next);
    var push := OrePush(pre.1, cur, next);
    if push.0 {
      if Has(pre.1.actors, next, Ore) {
        OrePushScores(pre.1, cur, next);
      }
      ArriveShape(pre.0, push.1, id, next);
    }
  }

  /** Charges fall only by one, and only when the rock on the next cell was pushed one cell on in the facing direction. */
  lemma StepChargesFall(d: Drive, w: World, id: nat)
    requires BoosterInvariant(d) && UnitAt(w.actors, id, Pusher)
    ensures var r := Step(d, w, id);
      r.drive.charges < d.charges ==>
        d.fuel > 0 && d.cursor < |d.path| && Has(w.actors, d.path[d.cursor], Rock) &&
        r.drive.charges == d.charges - 1 &&
        r.world.actors[FindAt(w.actors, d.path[d.cursor], Rock).value].pos == Neighbour(d.path[d.cursor], r.drive.facing)
  {
    var r := Step(d, w, id);
    if d.fuel > 0 && d.cursor < |d.path| {
      var next := d.path[d.cursor];
      var cur := w.actors[id].pos;
      var d1 := d.(facing := Facing(cur, next, d.facing));
      var pre := BoosterPush(d1, w, id, next);
      var push := OrePush(pre.1, cur, next);
      if push.0 {
        ArriveCharges(pre.0, push.1, id, next);
        ArriveFuel(pre.0, push.1, id, next);
      }
      if RockPushed(d1, w, id, next) {
        var rock := FindAt(w.actors, next, Rock).value;
        OrePushUntouched(pre.1, cur, next, Rock);
        if push.0 {
          ArriveKeeps(pre.0, push.1, id, next, Rock);
        }
        assert r.world.actors[rock] == pre.1.actors[rock];
      }
    }
  }

  /** Charges rise only when a move picks up a booster, which leaves it full, ready and not activated. */
  lemma StepChargesRise(d: Drive, w: World, id: nat)
    requires BoosterInvariant(d) && UnitAt(w.actors, id, Pusher)
    ensures var r := Step(d, w, id);
      r.drive.charges > d.charges ==>
        r.outcome == Moved && r.drive.charges == FullCharges && r.drive.ready && !r.drive.activated
  {
    if d.fuel > 0 && d.cursor < |d.path| {
      var next := d.path[d.cursor];
      var cur := w.actors[id].pos;
      var pre := BoosterPush(d.(facing := Facing(cur, next, d.facing)), w, id, next);
      var push := OrePush(pre.1, cur, next);
      if push.0 {
        ArriveCharges(pre.0, push.1, id, next);
      }
    }
  }

  /** What the planner's `canMove` reads when the pusher at `w.actors[id]` plans with booster state `d`. */
  function PlanContextOf(d: Drive, w: World, id: nat): PlanContext
    requires id < |w.actors|
  {
    PlanContext(w.grid, w.actors, w.actors[id].pos, d.ready, d.charges)
  }

  /**
   * The plan after entry `index` of the script: a token naming a cell
   * replaces the plan unless the game is finished; no script, an index past
   * its end or a token that is not two parts leave it; `None` where
   * `parseInt` throws. Nothing but the plan and its cursor ever changes.
   */
  function ScriptedPlan(d: Drive, controls: Option<seq<string>>, index: nat, w: World, id: nat, finished: bool): (r: Option<Drive>)
    requires id < |w.actors|
    ensures r.None? <==> controls.Some? && index < |controls.value| && ParseMoveToken(controls.value[index]).Malformed?
    ensures r.Some? ==> r.value.(path := d.path, cursor := d.cursor) == d
    ensures r.Some? && DriveValid(d) ==> DriveValid(r.value)
    ensures r.Some? && r.value != d ==>
      controls.Some? && index < |controls.value| && !finished && ParseMoveToken(controls.value[index]).MoveTo? &&
      r.value.cursor == 0 && r.value.path == PlanPath(PlanContextOf(d, w, id), ParseMoveToken(controls.value[index]).target)
  {
    if controls.None? || index >= |controls.value| then Some(d)
    else match ParseMoveToken(controls.value[index])
      case NoMove => Some(d)
      case Malformed => None
      case MoveTo(target) =>
        Some(if finished then d else d.(path := PlanPath(PlanContextOf(d, w, id), target), cursor := 0))
  }

  /**
   * The pusher's planning and movement state (the fields of `Pusher`, and the
   * identical copy the controller keeps in `MineMaze`), with its move script.
   */
  class PusherUnit {
    var path: seq<Pos>
    var cursor: nat
    var fuel: int
    var boosterReady: bool
    var boosterCharges: int
    var boosterActivated: bool
    var facing: Dir
    var controls: Option<seq<string>>

    function State(): Drive
      reads this
    {
      Drive(path, cursor, fuel, boosterReady, boosterCharges, boosterActivated, facing)
    }

    predicate Valid()
      reads this
    {
      DriveValid(State())
    }

    /** A fresh pusher: no plan, the configured fuel, an empty booster, no script. */
    constructor (initialFuel: int)
      ensures Valid()
      ensures State() == Drive([], 0, initialFuel, false, 0, false, East) && controls == None
    {
      path := [];
      cursor := 0;
      fuel := initialFuel;
      boosterReady := false;
      boosterCharges := 0;
      boosterActivated := false;
      facing := East;
      controls := None;
    }

    /** `setupPusher`: install the move script (`None` for a null list). */
    method SetupPusher(pusherControls: Option<seq<string>>)
      modifies this`controls
      ensures controls == pusherControls && State() == old(State())
    {
      controls := pusherControls;
    }

    /** Drop the plan and reset the cursor, as the controller does when the fuel is gone. */
    method DiscardPlan()
      requires Valid()
      modifies this`path, this`cursor
      ensures State() == old(State()).(path := [], cursor := 0) && Valid()
    {
      path := [];
      cursor := 0;
    }

    /**
     * `guideToLocation`: unless the game is finished, replace the plan by the
     * horizontal-then-vertical path toward `target` and reset the cursor.
     */
    method GuideToLocation(w: World, id: nat, target: Pos, finished: bool)
      requires Valid() && UnitAt(w.actors, id, Pusher)
      modifies this
      ensures Valid() && controls == old(controls)
      ensures finished ==> State() == old(State())
      ensures !finished ==>
        State() == old(State()).(path := PlanPath(PlanContextOf(old(State()), w, id), target), cursor := 0)
    {
      if finished {
        return;
      }
      var c := PlanContextOf(State(), w, id);
      path := PlanRoute(Passable(c), c.from, target);
      cursor := 0;
    }

    /**
     * `executeNextPathStep`: take the next planned step, as `Step` describes,
     * on the world `w`, returning the world it leaves.
     */
    method ExecuteNextPathStep(w: World, id: nat) returns (w': World, outcome: Outcome)
      requires Valid() && UnitAt(w.actors, id, Pusher)
      modifies this
      ensures StepResult(State(), w', outcome) == Step(old(State()), w, id)
      ensures Valid() && controls == old(controls)
    {
      ghost var d := State();
      StepKeepsInvariants(d, w, id);
      ghost var r := Step(d, w, id);
      if fuel <= 0 {
        path := [];
        cursor := 0;
        return w, OutOfFuel;
      }
      if cursor >= |path| {
        return w, NoStepLeft;
      }
      var next := path[cursor];
      var cur := w.actors[id].pos;
      if next.x > cur.x { facing := East; }
      else if next.x < cur.x { facing := West; }
      else if next.y > cur.y { facing := South; }
      else if next.y < cur.y { facing := North; }
      assert State() == d.(facing := Facing(cur, next, d.facing));

      var w1 := BoosterPhase(w, id, next);
      w', outcome := EnterPhase(w1, id, cur, next);
    }

    /** The move into `next` with its ore push, or the refusal that drops the plan. */
    method EnterPhase(w: World, id: nat, cur: Pos, next: Pos) returns (w': World, outcome: Outcome)
      requires BoosterInvariant(State()) && id < |w.actors|
      modifies this
      ensures StepResult(State(), w', outcome) == Enter(old(State()), w, id, cur, next)
      ensures controls == old(controls)
    {
      var push := OrePush(w, cur, next);
      if push.0 {
        w' := ArrivalPhase(push.1, id, next);
        outcome := Moved;
      } else {
        path := [];
        cursor := 0;
        w' := w;
        outcome := Refused;
      }
    }

    /** The booster phase of a step: push the rock on `next` one cell on and spend a charge. */
    method BoosterPhase(w: World, id: nat, next: Pos) returns (w1: World)
      requires BoosterInvariant(State()) && id < |w.actors|
      modifies this
      ensures (State(), w1) == BoosterPush(old(State()), w, id, next)
      ensures controls == old(controls)
    {
      w1 := w;
      var rock := FindAt(w.actors, next, Rock);
      if rock.Some? && boosterReady && boosterCharges > 0 {
        var pushTo := Neighbour(next, facing);
        if PusherCanMove(w.grid, w.actors, w.actors[id].pos, boosterReady, boosterCharges, pushTo) {
          w1 := w.(actors := w.actors[rock.value := w.actors[rock.value].(pos := pushTo)]);
          if !boosterActivated && boosterCharges == FullCharges {
            boosterActivated := true;
          }
          boosterCharges := boosterCharges - 1;
          if boosterCharges == 0 {
            boosterReady := false;
          }
        }
      }
    }

    /** The pusher has entered `next`: burn fuel, pick up fuel and booster, reveal a target, advance. */
    method ArrivalPhase(w: World, id: nat, next: Pos) returns (w': World)
      requires BoosterInvariant(State()) && id < |w.actors|
      modifies this
      ensures (State(), w') == Arrive(old(State()), w, id, next)
      ensures controls == old(controls)
    {
      var actors := w.actors[id := w.actors[id].(pos := next)];
      BurnFuel();
      actors := Pickups(actors, next);
      AdvanceCursor();
      w' := w.(actors := actors);
    }

    method BurnFuel()
      modifies this`fuel
      ensures State() == Burn(old(State()))
    {
      if fuel > 0 {
        fuel := fuel - 1;
      }
    }

    method AdvanceCursor()
      modifies this`cursor, this`path
      ensures State() == Advance(old(State()))
    {
      cursor := cursor + 1;
      if fuel == 0 {
        path := [];
        cursor := 0;
      }
    }

    /** The pickups on the pusher's cell, in the source's order. */
    method Pickups(actors: seq<Actor>, at: Pos) returns (actors': seq<Actor>)
      requires BoosterInvariant(State())
      modifies this`fuel, this`boosterReady, this`boosterCharges, this`boosterActivated
      ensures (State(), actors') == Collect(old(State()), actors, at)
    {
      actors' := FuelPickup(actors, at);
      actors' := BoosterPickup(actors', at);
      actors' := RevealTarget(actors', at);
    }

    /** A fuel canister on the pusher's cell is removed and refills the tank. */
    method FuelPickup(actors: seq<Actor>, at: Pos) returns (actors': seq<Actor>)
      modifies this`fuel
      ensures (fuel, actors') == PickUpFuel(old(fuel), actors, at)
    {
      actors' := actors;
      var can := FindAt(actors, at, Fuel);
      if can.Some? {
        actors' := actors[can.value := actors[can.value].(onGrid := false)];
        fuel := fuel + FuelRefillAmount;
      }
    }

    /** A booster on the pusher's cell is taken, when the pickup rule allows, and refills the charges. */
    method BoosterPickup(actors: seq<Actor>, at: Pos) returns (actors': seq<Actor>)
      requires BoosterInvariant(State())
      modifies this`boosterReady, this`boosterCharges, this`boosterActivated
      ensures (State(), actors') == PickUpBooster(old(State()), actors, at)
    {
      actors' := actors;
      var booster := FindAt(actors, at, Booster);
      if booster.Some? {
        if (!boosterReady && boosterCharges == 0) || boosterActivated {
          actors' := actors[booster.value := actors[booster.value].(onGrid := false)];
          boosterReady := true;
          boosterCharges := FullCharges;
          boosterActivated := false;
        }
      }
    }

    /**
     * `autoMoveNext`: read the scripted move at `index` and, unless the game is
     * finished, plan a path to it. Returns false where Java throws because a
     * coordinate is not a number.
     */
    method AutoMoveNext(index: nat, w: World, id: nat, finished: bool) returns (ok: bool)
      requires Valid() && UnitAt(w.actors, id, Pusher)
      modifies this
      ensures Valid() && controls == old(controls)
      ensures ok <==> ScriptedPlan(old(State()), controls, index, w, id, finished).Some?
      ensures ok ==> State() == ScriptedPlan(old(State()), controls, index, w, id, finished).value
      ensures (controls.None? || index >= |controls.value|) ==> ok && State() == old(State())
      ensures controls.Some? && index < |controls.value| ==>
        match ParseMoveToken(controls.value[index])
        case NoMove => ok && State() == old(State())
        case Malformed => !ok && State() == old(State())
        case MoveTo(target) =>
          ok &&
          (finished ==> State() == old(State())) &&
          (!finished ==> State() == old(State()).(path := PlanPath(PlanContextOf(old(State()), w, id), target), cursor := 0))
    {
      if controls.None? || index >= |controls.value| {
        return true;
      }
      var parts := Split(controls.value[index], '-');
      if |parts| == 2 {
        var x := ParseInt(parts[0]);
        var y := ParseInt(parts[1]);
        if x.None? || y.None? {
          return false;
        }
        if finished {
          return true;
        }
        GuideToLocation(w, id, Pos(x.value, y.value), finished);
      }
      ok := true;
    }
  }

  /**
   * The two loops of `guideToLocation`: walk the start row toward the target
   * column, then the column reached toward the target row, each up to the
   * first cell `ok` refuses.
   */
  method PlanRoute(ok: Pos -> bool, start: Pos, target: Pos) returns (path: seq<Pos>)
    ensures path == Route(ok, start, target)
  {
    path := [];
    if start.x != target.x {
      var dx := if target.x > start.x then 1 else -1;
      path := RowLeg(ok, start, dx, target.x);
    }
    ghost var h := path;
    assert h == HorizontalLeg(ok, start, target);
    var last := if |path| == 0 then start else path[|path| - 1];
    assert last == LegEnd(start, h);
    if last.y != target.y {
      var dy := if target.y > last.y then 1 else -1;
      var leg := ColumnLeg(ok, last, dy, target.y);
      path := path + leg;
    }
  }

  /** The horizontal loop: the cells of row `p.y` from `p` toward column `tx`, up to the first one `ok` refuses. */
  method RowLeg(ok: Pos -> bool, p: Pos, dx: int, tx: int) returns (leg: seq<Pos>)
    requires dx == 1 || dx == -1
    requires dx == 1 ==> tx > p.x
    requires dx == -1 ==> tx < p.x
    ensures leg == Walk(ok, p, dx, 0, Abs(tx - p.x))
  {
    ghost var n := Abs(tx - p.x);
    leg := [];
    var x := p.x + dx;
    ghost var here := p;
    while x != tx + dx
      invariant |leg| <= n && here.y == p.y && x == here.x + dx
      invariant dx == 1 ==> x == p.x + |leg| + 1
      invariant dx == -1 ==> x == p.x - |leg| - 1
      invariant leg + Walk(ok, here, dx, 0, n - |leg|) == Walk(ok, p, dx, 0, n)
      decreases n - |leg|
    {
      var step := Pos(x, p.y);
      if !ok(step) {
        assert Walk(ok, here, dx, 0, n - |leg|) == [];
        break;
      }
      ghost var rest := Walk(ok, step, dx, 0, n - |leg| - 1);
      assert Walk(ok, here, dx, 0, n - |leg|) == [step] + rest;
      assert (leg + [step]) + rest == leg + ([step] + rest);
      leg := leg + [step];
      here := step;
      x := x + dx;
    }
  }

  /** The vertical loop: the cells of column `p.x` from `p` toward row `ty`, up to the first one `ok` refuses. */
  method ColumnLeg(ok: Pos -> bool, p: Pos, dy: int, ty: int) returns (leg: seq<Pos>)
    requires dy == 1 || dy == -1
    requires dy == 1 ==> ty > p.y
    requires dy == -1 ==> ty < p.y
    ensures leg == Walk(ok, p, 0, dy, Abs(ty - p.y))
  {
    ghost var n := Abs(ty - p.y);
    leg := [];
    var y := p.y + dy;
    ghost var here := p;
    while y != ty + dy
      invariant |leg| <= n && here.x == p.x && y == here.y + dy
      invariant dy == 1 ==> y == p.y + |leg| + 1
      invariant dy == -1 ==> y == p.y - |leg| - 1
      invariant leg + Walk(ok, here, 0, dy, n - |leg|) == Walk(ok, p, 0, dy, n)
      decreases n - |leg|
    {
      var step := Pos(p.x, y);
      if !ok(step) {
        assert Walk(ok, here, 0, dy, n - |leg|) == [];
        break;
      }
      ghost var rest := Walk(ok, step, 0, dy, n - |leg| - 1);
      assert Walk(ok, here, 0, dy, n - |leg|) == [step] + rest;
      assert (leg + [step]) + rest == leg + ([step] + rest);
      leg := leg + [step];
      here := step;
      y := y + dy;
    }
  }
}
