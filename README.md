# MineMaze rule engine in Dafny

MineMaze is a grid puzzle. A pusher follows a planned path across a map of
typed cells (OUTSIDE, EMPTY, BORDER and the spawn types). It pushes ores onto
targets, burns fuel and refills it from canisters, and uses a three-charge
booster to shove boulders aside. A bomber jumps between scripted cells, and
armed bombs count down and blow up a cross of cells. The controller runs a tick
loop until enough ores lie on targets or the time budget is spent. It logs one
line per tick and appends "You won" or "You lost".

This project models that rule engine and proves properties of the model:

- `board.dfy` (module `Board`): cell types, entity kinds, the actor registry and the cell lookup.
- `text.dfy` (module `Text`): Java's `String.split` (limit 0) and `Integer.parseInt`.
- `script.dfy` (module `Script`): `"x-y"` tokens and `;`-separated placement lists.
- `rules.dfy` (module `Rules`): `canMove`, the ore-push rule, `getPushDirection` and `Machine.canMove`.
- `planner.dfy` (module `Planner`): the horizontal-then-vertical path planner.
- `pusher.dfy` (module `PusherEngine`): one step of the path (`Step`), the class `PusherUnit` and the planner loops.
- `bomb.dfy` (module `Bombs`): the fuse state machine, the cross-shaped blast and the class `Bomb`.
- `sweep.dfy` (module `Sweeps`): the per-tick bomb sweep `updateBombs`.
- `machine.dfy` (module `Machines`): the path cursor of `Machine`.
- `bomber.dfy` (module `Bombers`): the bomber's scripted command dispatch.
- `factory.dfy` (module `Factory`): `ActorFactory`'s row-major grid scan and extra spawns.
- `creator.dfy` (module `Creator`): `MineMazeCreator`'s board painting and setup order.
- `log.dfy` (module `Log`): `actorLocations` and the log line.
- `minemaze.dfy` (module `Game`): the controller class and `runApp`.

Modelling choices:

- **Actor registry.** The JGameGrid registry is a sequence of actors in the
  order they were added. Removing an actor sets its `onGrid` flag to false, so
  a registry index stays the identity of an actor. `getOneActorAt(cell, kind)`
  is the first on-grid actor of that kind on that cell (`Board.FindAt`).
- **Border colour.** Background colours are modelled by the cell type. A cell
  shows the border colour exactly when its type is BORDER
  (`Creator.BorderColourMeansBorder`, justified by `Creator.DrawBoard`).
- **Values and classes.** State the source mutates in place lives in classes
  with the source's fields: `PusherUnit`, `Bomb`, `Machine`, `Bomber` and
  `MineMaze`. Each state-changing method except the tick loop (`Play`)
  and `runApp` (`RunApp`) is proved equal to a function on values, and the
  properties are lemmas about that function. One pass of the loop body is
  `Game.TickOf`. `Play` and `RunApp` state the loop's exit condition, the
  bound on the count, and the verdict.
- **Two copies of the pusher logic.** The step and planning logic exists
  twice: in `MineMaze.java`, with the state held on the controller, and in
  `Pusher.java`, with the state held on the actor. The two copies have the
  same shape, so one class, `PusherEngine.PusherUnit`, models both. A row
  below cites one copy and names the other. The controller holds two
  instances, as the source does:
  - `unit` holds the controller's own plan, `pusherFuel` and booster
    (MineMaze.java:71-79). `executeNextPathStep` drives it and the log
    reports its fuel.
  - `pusherActor` holds the `Pusher` actor's own plan, fuel (100 at first)
    and booster (Pusher.java:16-29). The scripted `autoMoveNext` replans it
    (MineMaze.java:139).

  The loop never steps the actor's copy (MineMaze.java:141). So in a
  scripted run the pusher moves only along a plan the controller set
  itself, which only mouse input does (MineMaze.java:195), and never along
  its script. `Game.TickIdleController` and `Game.TickScriptOnlyPlans`
  state this.
- **Details taken from the code.**
  - *Rock branch of `canMove`.* The booster test uses `Integer.compare` on
    each axis (MineMaze.java:394-397, Pusher.java:211-213). It therefore
    accepts a rock anywhere in the pusher's row or column, not only on an
    adjacent cell. The push target is one cell beyond the rock, on the line
    away from the pusher.
  - *Bomber on the rock's cell.* Inside that branch no bomber check is made
    on the rock's own cell.
  - *Verdict.* `runApp` tests `oresCollected == oresWinning`, not `>=`.
    A negative `ores.winning` is accepted by the configuration
    (GameConfig.java:28). With it the loop guard fails before the first
    tick, and the game is lost.
  - The model follows the code in all three cases.
- **Time.** The double-valued `gameDuration` countdown is an integer budget in
  milliseconds. Each tick subtracts the simulation period, which must be
  positive. The number of ticks can differ from Java's by one (see
  "Left out").
- **Malformed input.** Where Java throws (`NumberFormatException`, or a
  missing `xy[1]`), the model returns `None`, `Malformed`, `Crash` or
  `Crashed`. It never skips a bad token and carries on.

## Model

| member | source | states |
|---|---|---|
| Board.FindAt | app/src/main/java/minemaze/MineMaze.java:318-324 | `getOneActorAt`: the result is an on-grid actor of that kind on that cell with no earlier match; `None` exactly when no actor matches |
| Board.Cell | app/src/main/java/minemaze/MineMaze.java:23-27 | a cell off a well-formed grid has type OUTSIDE, which is not BORDER and so does not block (an assumption; see "Left out") |
| Board.Neighbour | app/src/main/java/minemaze/MineMaze.java:265 | `getNeighbourLocation` gives one of the four orthogonal neighbours |
| Board.HasAppend | app/src/main/java/minemaze/ActorFactory.java:38-41 | after adding an actor, a kind is present on a cell iff it was before or the new actor is such an actor there |
| Board.UnitAtEvolves | app/src/main/java/minemaze/MineMaze.java:60-61 | a registry change that keeps kinds and the pushers' and bombers' presence keeps the pusher and bomber slots valid |
| Board.EvolvesTrans | app/src/main/java/minemaze/MineMaze.java:138-153 | the "no actor added, re-kinded or revived" relation composes across the phases of a tick |
| Text.Split | app/src/main/java/minemaze/ActorFactory.java:59-61 | Java `split`: no part holds the separator, and a string without the separator, the empty string included, is one part |
| Text.SplitJoin | app/src/main/java/minemaze/ActorFactory.java:59-61 | splitting a join of separator-free parts whose last part is non-empty gives back exactly those parts |
| Text.RawSplitJoin | app/src/main/java/minemaze/ActorFactory.java:59 | before trailing empty parts are dropped, a split exactly inverts a join |
| Text.ParseInt | app/src/main/java/minemaze/ActorFactory.java:62 | `Integer.parseInt` restricted to ASCII digits: a value only for an optionally signed run of `0`-`9`, and only inside the 32-bit range |
| Text.ParseIntToString | app/src/main/java/minemaze/MineMaze.java:467 | reading back a printed 32-bit integer gives that integer |
| Text.DigitsOfNat | app/src/main/java/minemaze/MineMaze.java:467 | the decimal digits printed for `n` have value `n` |
| Text.NatToStringHasNoSeparator | app/src/main/java/minemaze/MineMaze.java:467 | a printed number contains no non-digit character, so it never holds `-`, `,`, `;` or `#` |
| Script.ParseMoveToken | app/src/main/java/minemaze/Pusher.java:41-47 | a token is ignored exactly when it does not split on `-` into two parts; otherwise its target is the two parsed numbers, or `Malformed` where `parseInt` throws |
| Script.MoveTokenRoundTrip | app/src/main/java/minemaze/Pusher.java:42-47 | the token `"x-y"` of a cell with non-negative coordinates parses to that cell |
| Script.CellStringSplits | app/src/main/java/minemaze/MineMaze.java:467 | an `"x-y"` string splits into its two numbers and holds no `,` or `;` |
| Script.ParsePlacement | app/src/main/java/minemaze/ActorFactory.java:61-62 | an entry with fewer than two `-` parts fails, as Java's missing `xy[1]` does; a parsed entry had at least two parts |
| Script.ParsePlacements | app/src/main/java/minemaze/ActorFactory.java:60-63 | the list parses iff every entry does, and then entry `i` gives cell `i`; it fails iff some entry fails |
| Script.PlacementRoundTrip | app/src/main/java/minemaze/ActorFactory.java:58-63 | joining cells' `"x-y"` strings with `;` and parsing the result gives back exactly those cells, the empty list included |
| Script.CellEntriesReadBack | app/src/main/java/minemaze/ActorFactory.java:59-62 | each written entry is non-empty, holds no `;`, and parses to its cell |
| Script.PlacementsFromParts | app/src/main/java/minemaze/ActorFactory.java:60-63 | entries that each parse to the given cells parse as a list to exactly those cells |
| Script.CellStrings | app/src/main/java/minemaze/MineMaze.java:467 | entry `i` is the `"x-y"` string of cell `i` |
| Rules.PusherCanMoveBlocks | app/src/main/java/minemaze/MineMaze.java:383-411 | `canMove` is false on a border, wall or hard-rock cell and on a bomber cell without a rock; a cell free of all of these and of rocks is always enterable; the other copy, Pusher.java:200-229, is the same |
| Rules.RockNeedsBooster | app/src/main/java/minemaze/Pusher.java:208-225 | a rock cell is enterable only with the booster ready, a charge left, and the cell in the pusher's row or column; the other copy, MineMaze.java:391-408, is the same |
| Rules.PushDirectionLeads | app/src/main/java/minemaze/MineMaze.java:337-343 | for an orthogonal step, the push direction leads from the first cell to the second |
| Rules.RockPreviewMatchesPush | app/src/main/java/minemaze/Pusher.java:211-214 | for an adjacent rock, the cell `canMove` checks is the cell the booster pushes the rock into |
| Rules.CanOreMoveToElsewhere | app/src/main/java/minemaze/MineMaze.java:348-359 | an ore may move to another cell iff it is in bounds, not border, and free of rock, wall, hard rock, pusher, bomber and any ore; the other copy, Pusher.java:175-186, is the same |
| Rules.ShowLeftTarget | app/src/main/java/minemaze/MineMaze.java:365-367 | leaving a target shows that target and the ore; no actor moves, changes kind or leaves the grid |
| Rules.MoveOre | app/src/main/java/minemaze/MineMaze.java:364-374 | the ore lands on `dest`; the count rises by one iff a target is there, and the ore is then hidden; a target left behind is shown; only the ore moves; the other copy, Pusher.java:188-198, is the same |
| Rules.OrePush | app/src/main/java/minemaze/MineMaze.java:313-334 | the move is allowed iff `next` is not border, holds no wall, hard rock, rock or bomber, and any ore there can move on; a refusal changes nothing; an allowed move with an ore is exactly `MoveOre`; the other copy, Pusher.java:144-165, is the same |
| Rules.OrePushCounts | app/src/main/java/minemaze/MineMaze.java:364-374 | an ore push adds at most one to the counter, never lowers it, and changes no actor's kind |
| Rules.OrePushScores | app/src/main/java/minemaze/MineMaze.java:369-373 | after a successful push the ore is on the next cell in the push direction; the count rose iff a target is there, and the ore is then hidden |
| Rules.MachineIgnoresOreAndBomber | app/src/main/java/minemaze/Machine.java:55-67 | adding an ore or a bomber to a cell never changes `Machine.canMove` |
| Planner.Walk | app/src/main/java/minemaze/MineMaze.java:226-229 | a leg takes at most as many steps as it is long |
| Planner.WalkSteps | app/src/main/java/minemaze/MineMaze.java:226-229 | every step of a leg is one `(dx, dy)` step from the previous cell and passed `canMove` |
| Planner.WalkStops | app/src/main/java/minemaze/MineMaze.java:228 | a leg cut short stops right before a cell `canMove` refuses |
| Planner.WalkEnd | app/src/main/java/minemaze/MineMaze.java:226-227 | after `k` steps a leg ends `k` steps from its start |
| Planner.RouteAdjacent | app/src/main/java/minemaze/MineMaze.java:223-239 | every planned cell is one orthogonal step from the previous cell, the first from the start |
| Planner.RouteShape | app/src/main/java/minemaze/Pusher.java:65-81 | the plan is the horizontal leg followed by the vertical leg; the horizontal cells keep the start row, the vertical cells keep the column of the last horizontal cell, and every cell passed `canMove` |
| Planner.PlanShape | app/src/main/java/minemaze/MineMaze.java:219-239 | the planned path starts with the horizontal leg at the start row, continues in the column it reached, and every cell passed `canMove` and is adjacent to its predecessor |
| Planner.RouteLength | app/src/main/java/minemaze/MineMaze.java:224-238 | a plan is never longer than the Manhattan distance to the target |
| Planner.RouteStopsOnlyWhenBlocked | app/src/main/java/minemaze/MineMaze.java:224-239 | a short leg stopped at a cell `canMove` refuses; a full horizontal leg reaches the target column; two full legs end on the target |
| Planner.HorizontalLegStops | app/src/main/java/minemaze/Pusher.java:66-72 | the horizontal leg stays on the start row and either reaches the target column or stops before a refused cell |
| Planner.VerticalLegStops | app/src/main/java/minemaze/Pusher.java:74-81 | the vertical leg stays in its column and either reaches the target row or stops before a refused cell |
| Planner.RowKept | app/src/main/java/minemaze/MineMaze.java:227 | cells that each keep their predecessor's row all lie on the start row |
| Planner.RowKeptX | app/src/main/java/minemaze/MineMaze.java:236 | cells that each keep their predecessor's column all lie in the column of the leg's origin |
| PusherEngine.Facing | app/src/main/java/minemaze/MineMaze.java:257-260 | a step onto the pusher's own cell leaves its facing unchanged |
| PusherEngine.FacingLeads | app/src/main/java/minemaze/Pusher.java:95-98 | for an adjacent step the pusher turns to face the next cell, the same direction `getPushDirection` gives |
| PusherEngine.Spend | app/src/main/java/minemaze/MineMaze.java:268-269 | a push takes one charge; the booster becomes activated iff it already was or the push was made from three charges; it stays ready iff charges remain |
| PusherEngine.BoosterPush | app/src/main/java/minemaze/MineMaze.java:262-271 | with a rock on `next` and a ready booster whose target cell passes `canMove`, only that rock moves one cell in the facing direction and a charge is spent; otherwise nothing changes; the other copy, Pusher.java:100-109, is the same |
| PusherEngine.PickUpFuel | app/src/main/java/minemaze/MineMaze.java:280-282 | a canister on the cell is removed and adds exactly 100 fuel; without one nothing changes |
| PusherEngine.PickUpBooster | app/src/main/java/minemaze/MineMaze.java:284-291 | when the pickup guard holds, the booster is removed and the charges become 3, ready and not activated; otherwise booster and board stay as they were |
| PusherEngine.PickupGuard | app/src/main/java/minemaze/Pusher.java:122-129 | a booster is taken iff one is on the cell and the charges are 0 or the booster is activated, which is `(!ready && charges == 0) \|\| activated` under the booster invariant |
| PusherEngine.RevealTarget | app/src/main/java/minemaze/MineMaze.java:293-295 | the first target on the cell is shown and nothing else changes |
| PusherEngine.UntouchedFind | app/src/main/java/minemaze/MineMaze.java:263 | lookups of a kind no phase touched give the same answer before and after |
| PusherEngine.UntouchedTrans | app/src/main/java/minemaze/MineMaze.java:262-296 | "actors of kind `k` unchanged" composes across the phases of a step |
| PusherEngine.BoosterPushUntouched | app/src/main/java/minemaze/MineMaze.java:267 | the booster phase changes no actor other than rocks |
| PusherEngine.OrePushUntouched | app/src/main/java/minemaze/MineMaze.java:364-374 | the ore push changes no actor other than ores and targets |
| PusherEngine.UntouchedUpdate | app/src/main/java/minemaze/MineMaze.java:275 | updating an actor of another kind leaves kind `k` untouched |
| PusherEngine.PickUpFuelKeeps | app/src/main/java/minemaze/MineMaze.java:281-282 | the fuel pickup removes at most a canister and touches no other kind |
| PusherEngine.PickUpBoosterKeeps | app/src/main/java/minemaze/MineMaze.java:285-291 | the booster pickup removes at most a booster and touches no other kind |
| PusherEngine.RevealTargetKeeps | app/src/main/java/minemaze/MineMaze.java:294-295 | showing the target touches no other kind |
| PusherEngine.CollectKeeps | app/src/main/java/minemaze/MineMaze.java:280-295 | the pickups touch only fuel, boosters and targets, and revive or re-kind nothing |
| PusherEngine.ArriveKeeps | app/src/main/java/minemaze/Pusher.java:113-133 | entering a cell touches only the pusher, fuel, boosters and targets |
| PusherEngine.ArriveFuel | app/src/main/java/minemaze/MineMaze.java:278-298 | on entering, fuel drops by one unless already empty and rises by 100 on a canister; an empty tank drops the plan |
| PusherEngine.ArriveShape | app/src/main/java/minemaze/Pusher.java:113 | on entering, the pusher stands on `next`; grid and counter are unchanged |
| PusherEngine.ArriveCharges | app/src/main/java/minemaze/Pusher.java:122-129 | entering never lowers the charges; a rise means a fresh booster: 3 charges, ready, not activated |
| PusherEngine.StepGate | app/src/main/java/minemaze/MineMaze.java:250-251 | the step gives up for lack of fuel iff `fuel <= 0`, and then clears the plan and resets the cursor without moving anything; with no step left nothing changes; the other copy, Pusher.java:88-89, is the same |
| PusherEngine.EnterKeepsInvariants | app/src/main/java/minemaze/Pusher.java:112-141 | the move phase keeps the cursor within the path and the booster invariant, keeps the pusher on the grid, and leaves the grid alone |
| PusherEngine.StepKeepsInvariants | app/src/main/java/minemaze/MineMaze.java:249-304 | a step keeps the cursor within the path, the charges in 0..3, ready iff charges > 0, and the pusher and bomber on the grid |
| PusherEngine.StepMovesPusher | app/src/main/java/minemaze/MineMaze.java:274-275 | the pusher moves only on a successful step, and then exactly onto the next path cell; otherwise it stays as it was |
| PusherEngine.StepFuel | app/src/main/java/minemaze/MineMaze.java:274-298 | a successful move costs exactly one fuel and a canister there adds exactly 100; no other outcome changes the fuel; a fuel of 0 or less leaves no plan; fuel never falls below 0; the other copy, Pusher.java:112-136, is the same |
| PusherEngine.StepRefused | app/src/main/java/minemaze/MineMaze.java:300-303 | a blocked step discards the whole plan, resets the cursor, leaves the counter, and moves nothing except a boosted rock; the other copy, Pusher.java:138-141, is the same |
| PusherEngine.StepScores | app/src/main/java/minemaze/MineMaze.java:313-374 | a step adds at most one to the counter, and adds one iff the pusher moved into an ore whose next cell in the push direction holds a target |
| PusherEngine.StepChargesFall | app/src/main/java/minemaze/MineMaze.java:262-271 | charges fall only by one, only with a rock on the next cell, and only when that rock was moved one cell on in the facing direction; the other copy, Pusher.java:101-108, is the same |
| PusherEngine.StepChargesRise | app/src/main/java/minemaze/Pusher.java:122-129 | charges rise only on a successful move, and then to 3, ready and not activated |
| PusherEngine.PusherUnit.constructor | app/src/main/java/minemaze/Pusher.java:26-30 | a new pusher has an empty plan, the given fuel and an empty booster; the actor copy gets 100 and the controller copy, MineMaze.java:71-79 and 103, gets the configured fuel |
| PusherEngine.PusherUnit.SetupPusher | app/src/main/java/minemaze/Pusher.java:32-34 | stores the move script and changes nothing else |
| PusherEngine.PusherUnit.DiscardPlan | app/src/main/java/minemaze/MineMaze.java:250 | clears the plan and resets the cursor, nothing else |
| PusherEngine.PusherUnit.GuideToLocation | app/src/main/java/minemaze/Pusher.java:58-82 | when finished, nothing changes; otherwise the plan becomes the planned path from the pusher's cell, with cursor 0, and nothing else changes |
| PusherEngine.PusherUnit.ExecuteNextPathStep | app/src/main/java/minemaze/Pusher.java:87-142 | the new fields, board and outcome are exactly `Step` of the old ones; the other copy, MineMaze.java:249-304, is the same |
| PusherEngine.PusherUnit.EnterPhase | app/src/main/java/minemaze/Pusher.java:112-141 | the move-or-refuse phase is exactly `Enter` |
| PusherEngine.PusherUnit.BoosterPhase | app/src/main/java/minemaze/Pusher.java:100-109 | the booster phase is exactly `BoosterPush` |
| PusherEngine.PusherUnit.ArrivalPhase | app/src/main/java/minemaze/Pusher.java:113-136 | moving in, burning fuel, the pickups and the cursor advance are exactly `Arrive` |
| PusherEngine.PusherUnit.BurnFuel | app/src/main/java/minemaze/Pusher.java:116 | only the fuel changes, as `Burn` says |
| PusherEngine.PusherUnit.AdvanceCursor | app/src/main/java/minemaze/Pusher.java:135-136 | only path and cursor change, as `Advance` says |
| PusherEngine.PusherUnit.Pickups | app/src/main/java/minemaze/Pusher.java:118-133 | fuel, booster and target pickups are exactly `Collect` |
| PusherEngine.PusherUnit.FuelPickup | app/src/main/java/minemaze/Pusher.java:119-120 | only fuel and the board change, as `PickUpFuel` says |
| PusherEngine.PusherUnit.BoosterPickup | app/src/main/java/minemaze/Pusher.java:123-129 | only the booster fields and the board change, as `PickUpBooster` says |
| PusherEngine.ScriptedPlan | app/src/main/java/minemaze/Pusher.java:36-53 | the scripted entry fails exactly where `parseInt` throws; otherwise it changes only the plan and the cursor, and only by planning a path to the token's cell while the game is unfinished |
| PusherEngine.PusherUnit.AutoMoveNext | app/src/main/java/minemaze/Pusher.java:36-53 | the new state is exactly `ScriptedPlan`: no script or index past its end does nothing; a token without two `-` parts is ignored; a malformed number reports failure; a two-part token plans a path to its cell unless the game is finished |
| PusherEngine.PlanRoute | app/src/main/java/minemaze/MineMaze.java:219-239 | the loops build exactly `Route`: the horizontal leg, then the vertical leg from the cell it reached |
| PusherEngine.RowLeg | app/src/main/java/minemaze/MineMaze.java:224-230 | the horizontal `for` loop appends exactly the cells of `Walk` toward the target column |
| PusherEngine.ColumnLeg | app/src/main/java/minemaze/MineMaze.java:233-239 | the vertical `for` loop appends exactly the cells of `Walk` toward the target row |
| Bombs.Clear | app/src/main/java/minemaze/Bomb.java:70-71 | removing a found actor keeps the registry length |
| Bombs.Light | app/src/main/java/minemaze/Bomb.java:77-79 | showing a found actor keeps the registry length |
| Bombs.BlastCell | app/src/main/java/minemaze/Bomb.java:63-79 | blasting a cell keeps the registry length |
| Bombs.Blast | app/src/main/java/minemaze/Bomb.java:62-80 | blasting a list of cells keeps the registry length |
| Bombs.BlastCellEffect | app/src/main/java/minemaze/Bomb.java:67-79 | in one cell, exactly the first hard rock and the first rock leave the grid, and exactly the first ore, booster and fuel become visible; nothing moves or changes kind |
| Bombs.ClearKeepsOthers | app/src/main/java/minemaze/Bomb.java:68-71 | removing the hard rock does not change which rock is found next |
| Bombs.LightKeeps | app/src/main/java/minemaze/Bomb.java:74-79 | showing an actor does not change any lookup |
| Bombs.ClearIndex | app/src/main/java/minemaze/Bomb.java:70-71 | removal takes exactly the found actor off the grid and changes nothing else |
| Bombs.LightIndex | app/src/main/java/minemaze/Bomb.java:77-79 | showing makes exactly the found actor visible and changes nothing else |
| Bombs.BlastEffect | app/src/main/java/minemaze/Bomb.java:62-80 | a blast moves nothing, hides nothing, revives or re-kinds nothing, and leaves every actor off the blasted cells exactly as it was |
| Bombs.BlastCellKeepsRemoved | app/src/main/java/minemaze/Bomb.java:70-71 | an actor already removed stays removed |
| Bombs.BlastCellRemovesFirst | app/src/main/java/minemaze/Bomb.java:68-71 | a hard rock or rock present on the cell is removed |
| Bombs.BlastCellKeepsShown | app/src/main/java/minemaze/Bomb.java:77-79 | a visible actor stays visible |
| Bombs.BlastCellShowsFirst | app/src/main/java/minemaze/Bomb.java:74-79 | an ore, booster or fuel present on the cell becomes visible |
| Bombs.BlastKeepsElsewhere | app/src/main/java/minemaze/Bomb.java:62-80 | lookups on a cell outside the blast are unchanged |
| Bombs.BlastRemoves | app/src/main/java/minemaze/Bomb.java:62-71 | on every blasted cell, the first hard rock and the first rock found there end up removed |
| Bombs.BlastReveals | app/src/main/java/minemaze/Bomb.java:62-79 | on every blasted cell, the first ore, booster and fuel found there end up visible |
| Bombs.ExplodeSparesOffCross | app/src/main/java/minemaze/Bomb.java:54-65 | an actor that is neither on the centre nor on a cell at exactly the radius along one axis is untouched; the blast is a cross, not a square |
| Bombs.ExplodeIdempotent | app/src/main/java/minemaze/Bomb.java:45-48 | after an explosion the bomb is inactive, and a second explosion changes neither the bomb nor the board |
| Bombs.TickAfterExplode | app/src/main/java/minemaze/Bomb.java:35-36 | a tick after an explosion does nothing |
| Bombs.TickIdle | app/src/main/java/minemaze/Bomb.java:36 | a tick of an inactive or unarmed bomb changes nothing |
| Bombs.TicksCountdown | app/src/main/java/minemaze/Bomb.java:38-42 | fewer ticks than the fuse only count the fuse down, one per tick, and leave the board alone |
| Bombs.ExplodesOnNthTick | app/src/main/java/minemaze/Bomb.java:38-42 | an armed bomb with fuse `n >= 1` is still active after `n - 1` ticks and explodes on the `n`-th, blasting its cross |
| Bombs.BlastAround | app/src/main/java/minemaze/Bomb.java:54-80 | the loop over the five direction offsets performs exactly the blast of the cross |
| Bombs.BlastStep | app/src/main/java/minemaze/Bomb.java:62-80 | blasting one more cell is blasting that cell after the earlier ones |
| Bombs.BlastCellAt | app/src/main/java/minemaze/Bomb.java:65-79 | the loop body on one cell is exactly `BlastCell` |
| Bombs.Bomb.constructor | app/src/main/java/minemaze/Bomb.java:14-22 | a new bomb is active and unarmed, at its cell with the given fuse and radius |
| Bombs.Bomb.Use | app/src/main/java/minemaze/Bomb.java:24-27 | `use` arms the bomb and changes nothing else |
| Bombs.Bomb.Arm | app/src/main/java/minemaze/Bomb.java:29-32 | `arm` sets armed and changes nothing else |
| Bombs.Bomb.Tick | app/src/main/java/minemaze/Bomb.java:35-43 | the new bomb state and board are exactly `TickBomb` of the old |
| Bombs.Bomb.Explode | app/src/main/java/minemaze/Bomb.java:45-85 | the new bomb state and board are exactly `ExplodeBomb` of the old |
| Sweeps.Sweep | app/src/main/java/minemaze/MineMaze.java:421-428 | the sweep never lengthens the bomb list |
| Sweeps.TickAll | app/src/main/java/minemaze/MineMaze.java:424-425 | ticking every active bomb keeps the list length |
| Sweeps.SweepIsTickThenDrop | app/src/main/java/minemaze/MineMaze.java:421-428 | removing during iteration is the same as ticking every active bomb in order and then dropping those that went off |
| Sweeps.TickAllEach | app/src/main/java/minemaze/MineMaze.java:424-425 | each bomb keeps its cell, radius and arming; inactive or unarmed bombs are unchanged; an armed active bomb loses one fuse tick; it goes off iff its fuse ran out |
| Sweeps.DropExact | app/src/main/java/minemaze/MineMaze.java:426 | the kept bombs are exactly those that did not become inactive during the sweep, and nothing is dropped iff none went off |
| Sweeps.DropShorter | app/src/main/java/minemaze/MineMaze.java:426 | dropping never lengthens the list |
| Sweeps.TickEvolves | app/src/main/java/minemaze/Bomb.java:35-43 | a tick adds, revives and re-kinds no actor |
| Sweeps.SweepEvolves | app/src/main/java/minemaze/MineMaze.java:419-429 | a sweep adds, revives and re-kinds no actor, so the pusher and bomber stay on the grid |
| Sweeps.SweepQuiet | app/src/main/java/minemaze/MineMaze.java:424-426 | when no bomb is both active and armed, the sweep changes nothing |
| Sweeps.UpdateBombs | app/src/main/java/minemaze/MineMaze.java:419-429 | the iterator loop yields exactly `Sweep` |
| Sweeps.Ticked | app/src/main/java/minemaze/Bomb.java:36-44 | a bomb's own state after its tick is the same whatever the board |
| Sweeps.SweepBombsIgnoreBoard | app/src/main/java/minemaze/MineMaze.java:421-428 | which bombs a sweep keeps, and in what state, does not depend on the board it blasts |
| Machines.StepMoveEffect | app/src/main/java/minemaze/Machine.java:36-50 | when not moving or at the end: done, location kept, `isMoving` false; otherwise the machine moves exactly to `movePath[index]` and the cursor advances by one; finishing happens iff the cursor reaches the end; the cursor never passes the path size |
| Machines.StepsFollowPath | app/src/main/java/minemaze/Machine.java:36-50 | after `k` steps the machine stands on the `k`-th remaining path cell, and it is still moving iff cells remain |
| Machines.StepsArrive | app/src/main/java/minemaze/Machine.java:44-47 | walking the whole remaining path ends on its last cell, not moving, and a further step is a no-op reporting done |
| Machines.Machine.constructor | app/src/main/java/minemaze/Machine.java:15-23 | a new machine has an empty path, cursor 0, is not moving and has no border colour |
| Machines.Machine.SetBorderColor | app/src/main/java/minemaze/Machine.java:28-30 | sets the border colour |
| Machines.Machine.StepMove | app/src/main/java/minemaze/Machine.java:36-50 | the new location, cursor, moving flag and returned result are exactly `MoverStep` of the old state |
| Bombers.BomberCommand | app/src/main/java/minemaze/Bomber.java:29-45 | the bomb command is recognised before coordinate parsing; otherwise a token is idle iff it does not split into two parts, and jumps to the parsed cell iff it does |
| Bombers.BombCommandIsNoMove | app/src/main/java/minemaze/MineMaze.java:44 | `"Bomb"` has no `-`, so without the first check it would be ignored |
| Bombers.JumpRoundTrip | app/src/main/java/minemaze/Bomber.java:37-40 | the token `"x-y"` jumps to that cell |
| Bombers.Bomber.constructor | app/src/main/java/minemaze/Bomber.java:8-12 | a new bomber has no script |
| Bombers.Bomber.SetupBomber | app/src/main/java/minemaze/Bomber.java:14-16 | stores the script |
| Bombers.BomberMove | app/src/main/java/minemaze/Bomber.java:27-47 | the entry fails exactly on a malformed jump; otherwise only the bomber's own location may change, and only by a jump to the token's cell |
| Bombers.Bomber.AutoMoveNext | app/src/main/java/minemaze/Bomber.java:27-47 | the new registry is exactly `BomberMove`: no script or index past its end does nothing; the bomb command only refreshes; a two-part token moves the bomber straight to the cell, with no path or collision check, even when finished, and refreshes only when not finished; a malformed number fails; other tokens are ignored |
| Factory.RowSpawns | app/src/main/java/minemaze/ActorFactory.java:29-48 | one row spawns at most one actor per cell |
| Factory.RowSpawnsShape | app/src/main/java/minemaze/ActorFactory.java:29-48 | each actor of a row stands on a spawn cell of that row, with the kind mapped from its type, in increasing x |
| Factory.RowSpawnsComplete | app/src/main/java/minemaze/ActorFactory.java:32-46 | every spawn-type cell of the row gets an actor |
| Factory.GridSpawnsShape | app/src/main/java/minemaze/ActorFactory.java:28-50 | the spawned actors stand on spawn cells inside the scanned rows, in row-major order |
| Factory.GridSpawnsCells | app/src/main/java/minemaze/ActorFactory.java:28-50 | every spawned actor stands on a spawn cell among the scanned rows, with the mapped kind |
| Factory.GridSpawnsOrder | app/src/main/java/minemaze/ActorFactory.java:28-29 | actors come out with y as the outer and x as the inner loop |
| Factory.GridSpawnsComplete | app/src/main/java/minemaze/ActorFactory.java:28-46 | every spawn-type cell in the scanned rows gets an actor |
| Factory.AllGridSpawnsExact | app/src/main/java/minemaze/ActorFactory.java:25-52 | exactly one actor per PUSHER, TARGET, BOULDER, BOOSTER, HARD_ROCK and BOMBER cell, at that cell with the mapped kind, in row-major order; other types spawn nothing |
| Factory.LastFrom | app/src/main/java/minemaze/ActorFactory.java:33-46 | the pusher or bomber the game keeps is the last one spawned, and `None` means none was spawned |
| Factory.LastFromAppend | app/src/main/java/minemaze/MineMaze.java:173-183 | spawning a unit makes it the one kept; another kind leaves the choice alone |
| Factory.SpawnGridActors | app/src/main/java/minemaze/ActorFactory.java:25-52 | the nested loops append exactly `AllGridSpawns`, and the recorded pusher and bomber are the last spawned |
| Factory.SpawnRow | app/src/main/java/minemaze/ActorFactory.java:29-49 | the inner loop appends exactly one row's spawns |
| Factory.SpawnCell | app/src/main/java/minemaze/ActorFactory.java:30-48 | one cell appends exactly its mapped actor, if any |
| Factory.PlaceAll | app/src/main/java/minemaze/ActorFactory.java:60-63 | one actor per parsed cell |
| Factory.PlaceAllAt | app/src/main/java/minemaze/ActorFactory.java:60-63 | actor `i` is an entity of the kind at cell `i` |
| Factory.ExtraSpawnsRoundTrip | app/src/main/java/minemaze/ActorFactory.java:57-79 | parsing the three written lists spawns exactly one entity per cell: ores first, then fuel, then boosters; an empty list spawns nothing |
| Factory.PlacementsFail | app/src/main/java/minemaze/ActorFactory.java:61-62 | one bad entry makes the whole list fail |
| Factory.PlaceAllSnoc | app/src/main/java/minemaze/ActorFactory.java:60-63 | one more cell adds one more actor at the end |
| Factory.SpawnList | app/src/main/java/minemaze/ActorFactory.java:58-64 | an empty list spawns nothing; otherwise one entity per parsed cell, or failure |
| Factory.SpawnEntries | app/src/main/java/minemaze/ActorFactory.java:60-63 | the `for` loop appends one entity per entry, or fails on a bad one |
| Factory.SpawnExtra | app/src/main/java/minemaze/ActorFactory.java:57-79 | the three loops append exactly `ExtraSpawns`, or fail where Java throws |
| Creator.BorderColourMeansBorder | app/src/main/java/minemaze/MineMazeCreator.java:44-49 | with a border colour distinct from both greys, a cell shows it iff its type is BORDER |
| Creator.GameBorderColourIsDistinct | app/src/main/java/minemaze/MineMaze.java:52 | the game's `(100, 100, 100)` border colour is such a colour |
| Creator.DrawBoard | app/src/main/java/minemaze/MineMazeCreator.java:35-52 | every cell ends border-coloured if BORDER, light grey if any other non-OUTSIDE type, and background grey if OUTSIDE |
| Creator.ClearBackground | app/src/main/java/minemaze/MineMazeCreator.java:38 | every cell gets the clear colour |
| Creator.SpawnExtras | app/src/main/java/minemaze/MineMazeCreator.java:54-79 | a null or empty list spawns nothing; otherwise one entity per parsed cell, ores then fuel then boosters |
| Creator.SpawnGridActors | app/src/main/java/minemaze/MineMazeCreator.java:81-108 | the same row-major scan and mapping as the factory's |
| Creator.SpawnAll | app/src/main/java/minemaze/MineMazeCreator.java:26-29 | the extras come before the grid actors |
| Creator.Setup | app/src/main/java/minemaze/MineMazeCreator.java:21-33 | draw the board, then spawn the extras, then the grid actors; the kept pusher and bomber are the last spawned from the map |
| Log.OfKind | app/src/main/java/minemaze/MineMaze.java:439-446 | `getActors(kind)`: every listed actor is of that kind and still on the grid |
| Log.Terminated | app/src/main/java/minemaze/MineMaze.java:467 | the buffer of entries, each followed by a comma, ends in a comma |
| Log.WrittenTerminated | app/src/main/java/minemaze/MineMaze.java:464-469 | the buffer the loop writes is the `:` and then every visible cell followed by a comma |
| Log.TrimmedWritten | app/src/main/java/minemaze/MineMaze.java:470 | deleting the last character leaves the cells joined by commas, with no trailing comma |
| Log.ActorLocations | app/src/main/java/minemaze/MineMaze.java:461-472 | the loop returns exactly `Fragment`: empty without visible actors, otherwise `:` and the visible cells joined by `,` |
| Log.AppendActor | app/src/main/java/minemaze/MineMaze.java:465-468 | one loop pass extends the buffer by the actor's entry iff it is visible |
| Log.FragmentReadBack | app/src/main/java/minemaze/MineMaze.java:461-472 | the fragment is empty iff no actor is visible; otherwise it starts with `:` and its comma-separated entries read back to exactly the visible cells, in list order |
| Log.FragmentAvoids | app/src/main/java/minemaze/MineMaze.java:466-467 | a fragment holds only digits, `-`, `:` and `,` |
| Log.SectionAvoids | app/src/main/java/minemaze/MineMaze.java:449-456 | no section holds `#` |
| Log.FieldsAvoid | app/src/main/java/minemaze/MineMaze.java:448-456 | none of the nine fields holds `#` |
| Log.SnapshotFields | app/src/main/java/minemaze/MineMaze.java:448-457 | a log line ends in a newline, and splitting the rest on `#` gives back the nine fields: index, pusher with fuel, ores, targets, boulders, bombers, markers, boosters, hard rocks |
| Log.LogLine | app/src/main/java/minemaze/MineMaze.java:438-458 | the line built from eight `actorLocations` calls is exactly `Snapshot` |
| Game.Verdict | app/src/main/java/minemaze/MineMaze.java:163-164 | "You won" iff the count equals the threshold, "You lost" otherwise |
| Game.TickPreserves | app/src/main/java/minemaze/MineMaze.java:131-155 | a tick keeps both pusher states valid, the units on the grid and the grid; it scores at most one ore, advances the index only in auto mode, leaves the bombs `SweptBombs` keeps, and never throws outside auto mode |
| Game.MovesPreserve | app/src/main/java/minemaze/MineMaze.java:138-140 | the scripted moves keep the actor's copy valid and the units on the grid, and add, revive or re-kind no actor |
| Game.MoveStepPreserves | app/src/main/java/minemaze/MineMaze.java:138-145 | the movement part keeps the grid, the bombs and both copies valid, and scores at most one ore |
| Game.SweepStepPreserves | app/src/main/java/minemaze/MineMaze.java:152 | the sweep keeps the units, the grid, the count and both pusher copies, and leaves `SweptBombs` |
| Game.TickScriptOnlyPlans | app/src/main/java/minemaze/Pusher.java:58-82 | the actor's copy only ever gets a new plan: its fuel and booster never change, and outside auto mode nothing in it changes |
| Game.TickIdleController | app/src/main/java/minemaze/MineMaze.java:249-251 | while the controller's plan is used up, a tick scores nothing and the plan stays used up: the scripted replanning never reaches the controller's copy |
| Game.SpawnedUnit | app/src/main/java/minemaze/MineMaze.java:173-183 | the unit kept from the grid scan is on the grid with its kind |
| Game.MineMaze.constructor | app/src/main/java/minemaze/MineMaze.java:93-107 | an empty board, the configured fuel and duration, nothing collected, no pusher or bomber; the actor copy of the pusher state starts with fuel 100 (Pusher.java:29) |
| Game.MineMaze.Setup | app/src/main/java/minemaze/MineMaze.java:120-123 | the extras, then the grid actors; the last pusher and bomber are kept, and the `Pusher` actor and the bomber get their scripts; failure iff a placement list is malformed |
| Game.MineMaze.GuidePusherToLocation | app/src/main/java/minemaze/MineMaze.java:216-240 | without a pusher or when finished, nothing changes; otherwise the controller's plan is replaced by the planned path with cursor 0 |
| Game.MineMaze.ExecuteNextPathStep | app/src/main/java/minemaze/MineMaze.java:249-304 | the controller's copy and the board become exactly `ControllerStep`: with no fuel the plan is dropped even without a pusher; otherwise the pusher takes exactly `Step`; the counter rises by at most one |
| Game.MineMaze.UpdateBombs | app/src/main/java/minemaze/MineMaze.java:419-429 | without a bomber nothing changes; otherwise bombs and board become `Sweep` of the old ones, which is `SweepStep` on the tick's values |
| Game.MineMaze.UpdateLogResult | app/src/main/java/minemaze/MineMaze.java:438-458 | appends exactly this tick's `Snapshot` line, with the controller's `pusherFuel` |
| Game.MineMaze.PusherScript | app/src/main/java/minemaze/MineMaze.java:139 | the `Pusher` actor's copy becomes exactly its `ScriptedPlan`, or nothing without a pusher; the controller's copy is untouched |
| Game.MineMaze.BomberScript | app/src/main/java/minemaze/MineMaze.java:140 | the registry becomes exactly `BomberMove`, or nothing without a bomber; the count and the grid are kept |
| Game.MineMaze.AutoMoves | app/src/main/java/minemaze/MineMaze.java:138-140 | the actor's copy and the registry become exactly `Moves`: the pusher's entry first, then the bomber's; the controller's plan and the count are untouched |
| Game.MineMaze.ScriptedMoveUnits | app/src/main/java/minemaze/MineMaze.java:138-142 | in auto mode the values become exactly `MoveStep`: the scripts, then the controller's step on the board the bomber left, then the index advance |
| Game.MineMaze.NextIndex | app/src/main/java/minemaze/MineMaze.java:142 | the script index advances by one |
| Game.MineMaze.MoveUnits | app/src/main/java/minemaze/MineMaze.java:138-145 | the values become exactly `MoveStep`; at most one ore is scored and the script index advances only in auto mode |
| Game.MineMaze.SpendPeriod | app/src/main/java/minemaze/MineMaze.java:134 | the time left shrinks by one period |
| Game.MineMaze.Advance | app/src/main/java/minemaze/MineMaze.java:138-152 | the values become exactly `TickOf`: the movement part, then the sweep |
| Game.MineMaze.RunTick | app/src/main/java/minemaze/MineMaze.java:132-155 | a tick spends one period, the values become exactly `TickOf` of the old ones, and it appends its log line; it fails exactly where `TickOf` is `None` |
| Game.MineMaze.Play | app/src/main/java/minemaze/MineMaze.java:131-158 | the loop ends with the guard false; the count stays at or above 0 and within a non-negative threshold; when the guard fails at once, nothing changes |
| Game.MineMaze.RunApp | app/src/main/java/minemaze/MineMaze.java:118-167 | the loop ends with the winning count reached or the time spent; the count never passes a non-negative threshold; the log ends with the `==` verdict, "You won" iff a non-negative threshold was reached; a lost game ran out of time or had a negative threshold, and a negative threshold runs no tick; a malformed placement list crashes the run |

## Left out

- Rendering and the HUD are left out as drawing only: `BoardRenderer`, `HudRenderer`, sprites, `setTitle`, `refresh`, `show`, `doRun`, `doPause`, fonts and `setPaintOrder`.
- Mouse input (`mouseEvent`, `toLocationInGrid`, MineMaze.java:191-207) is left out. It translates pixels and calls bomber methods this revision's `Bomber.java` lacks.
- `Thread.sleep` and the floating-point `gameDuration` are replaced by an integer millisecond budget, and the simulation period must be positive.
- Game.MineMaze.RunApp: the number of ticks can differ from Java's by one. Java subtracts `period / 1000.0` as a double. When that step is not exact in binary (0.1 or 0.05, say), the last subtraction can end just below 0, and Java stops one tick sooner than the model. For example, 2 s at 100 ms gives 20 ticks in Java and 21 in the model. The model's log then has one more line. Floating-point rounding is not modelled.
- Board.Cell: the source never says what `getCell` or the background colour give off the map. The model answers OUTSIDE, which is not a border. So `canMove`, the booster's push target (MineMaze.java:265-267) and the planner's legs treat cells past the map edge as enterable. This is an assumption of the model.
- Text.ParseInt: only the ASCII digits `0`-`9` are accepted. Java's `Integer.parseInt` also accepts the other Unicode decimal digits (through `Character.digit`). For example, Arabic-Indic digits parse in Java but are `Malformed` or `Crashed` here.
- `GameConfig.java` is not part of this model. The placement strings and the two already-split scripts are inputs, and `Properties` parsing is left out.
- `Usable.java` is left out: it holds no logic. `System.out.println` messages are left out too.
- Bomber behaviour of other revisions is left out. This covers `handleMovement`, `getBombs`, `startMoveToBomb`, bomb markers placed from the inventory, `maxBombs` and the `setBorderColor` call in `onBomberCreated`. The bomber's bombs are an abstract list of bomb states held by the controller.
- Bombs.Bomb.Explode: the bomb's own `removeActor(this)` (Bomb.java:84) is left out, because bombs are not actors in the registry model.
- 32-bit wrap-around of fuel, the ore counter and the script index is left out: the model uses unbounded integers, and only parsed coordinates are range-checked.
- Setup and spawning stop at the first malformed entry, where Java throws. The actors Java had already added before the exception are not kept.
- The `Rock` and `HardRock` classes are not part of this model; they are distinct kinds, so a lookup of rocks never returns a hard rock.
- `getActors` is assumed to list actors in the order they were added.
- Game.MineMaze.Play and Game.MineMaze.RunApp state the exit condition, the count bound and the verdict, not the final board as a function of the inputs: the loop runs a data-dependent number of `TickOf` steps.
