/**
 * The bomber's scripted commands: each entry of its control list is either
 * the bomb command or an `x-y` cell the bomber jumps to.
 */
module Bombers {
  import opened Wrappers
  import opened Text
  import opened Board
  import opened Script

  /** What one scripted entry does to the bomber. */
  datatype Command = Idle | PlaceBomb | JumpTo(target: Pos) | Crash

  /**
   * The bomb command is recognised before any coordinate parsing; a token
   * with exactly two `-`-separated numbers is a jump; a two-part token that
   * is not two numbers is where Java throws; anything else is ignored.
   */
  function BomberCommand(token: string, bombCommand: string): (c: Command)
    ensures token == bombCommand ==> c == PlaceBomb
    ensures token != bombCommand ==> (c == Idle <==> ParseMoveToken(token) == NoMove)
    ensures token != bombCommand ==> (c.JumpTo? <==> ParseMoveToken(token).MoveTo?)
    ensures c.JumpTo? ==> ParseMoveToken(token) == MoveTo(c.target)
  {
    if token == bombCommand then PlaceBomb
    else match ParseMoveToken(token)
      case NoMove => Idle
      case MoveTo(p) => JumpTo(p)
      case Malformed => Crash
  }

  /** The bomb command is never mistaken for a move, so the pusher's script ignores it. */
  lemma BombCommandIsNoMove()
    ensures ParseMoveToken(BombCommand) == NoMove
  {
    assert '-' !in BombCommand;
  }

  /** A cell written as `x-y` makes the bomber jump exactly there. */
  lemma JumpRoundTrip(p: Pos)
    requires Writable(p)
    ensures BomberCommand(CellString(p), BombCommand) == JumpTo(p)
  {
    MoveTokenRoundTrip(p);
    assert CellString(p) != BombCommand by {
      assert '-' in CellString(p);
      assert '-' !in BombCommand;
    }
  }

  /**
   * The registry after entry `index` of the bomber's script: a jump moves
   * the bomber at `id` and nothing else; `None` where Java throws.
   */
  function BomberMove(actors: seq<Actor>, controls: Option<seq<string>>, index: nat, bombCommand: string, id: nat): (r: Option<seq<Actor>>)
    requires UnitAt(actors, id, Bomber)
    ensures r.None? <==> controls.Some? && index < |controls.value| && BomberCommand(controls.value[index], bombCommand) == Crash
    ensures r.Some? ==> UnitAt(r.value, id, Bomber) && Evolves(actors, r.value)
    ensures r.Some? ==> |r.value| == |actors| && r.value[id] == actors[id].(pos := r.value[id].pos)
    ensures r.Some? ==> forall i :: 0 <= i < |actors| && i != id ==> r.value[i] == actors[i]
    ensures r.Some? && r.value[id].pos != actors[id].pos ==>
      controls.Some? && index < |controls.value| && BomberCommand(controls.value[index], bombCommand) == JumpTo(r.value[id].pos)
  {
    if controls.None? || index >= |controls.value| then Some(actors)
    else match BomberCommand(controls.value[index], bombCommand)
      case JumpTo(p) =>
        EvolvesUpdate(actors, id, actors[id].(pos := p));
        Some(actors[id := actors[id].(pos := p)])
      case Crash => None
      case _ => Some(actors)
  }

  class Bomber {
    /** `null` until `setupBomber` gives the script. */
    var controls: Option<seq<string>>

    constructor ()
      ensures controls == None
    {
      controls := None;
    }

    /** `setupBomber`: install the script (`None` for a null list). */
    method SetupBomber(bomberControls: Option<seq<string>>)
      modifies this`controls
      ensures controls == bomberControls
    {
      controls := bomberControls;
    }

    /**
     * `autoMoveNext`: the bomber at slot `id` follows entry `index` of its
     * script. `refreshed` says whether the display callback runs; `ok` is
     * false where Java throws on a malformed number. A jump sets the
     * location without any collision check, even once the game is finished.
     */
    method AutoMoveNext(index: nat, finished: bool, bombCommand: string, actors: seq<Actor>, id: nat)
      returns (actors': seq<Actor>, ok: bool, refreshed: bool)
      requires UnitAt(actors, id, Bomber)
      ensures UnitAt(actors', id, Bomber) && Evolves(actors, actors')
      ensures ok <==> BomberMove(actors, controls, index, bombCommand, id).Some?
      ensures ok ==> actors' == BomberMove(actors, controls, index, bombCommand, id).value
      ensures controls.None? || index >= |controls.value| ==> actors' == actors && ok && !refreshed
      ensures controls.Some? && index < |controls.value| ==>
        match BomberCommand(controls.value[index], bombCommand)
        case Idle => actors' == actors && ok && !refreshed
        case PlaceBomb => actors' == actors && ok && refreshed
        case Crash => actors' == actors && !ok
        case JumpTo(p) => actors' == actors[id := actors[id].(pos := p)] && ok && refreshed == !finished
    {
      actors', ok, refreshed := actors, true, false;
      if controls.Some? && index < |controls.value| {
        var currentMove := controls.value[index];
        var parts := Split(currentMove, '-');
        if currentMove == bombCommand {
          refreshed := true;
          return;
        }
        if |parts| == 2 {
          var x := ParseInt(parts[0]);
          var y := ParseInt(parts[1]);
          if x.None? || y.None? {
            ok := false;
            return;
          }
          actors' := actors[id := actors[id].(pos := Pos(x.value, y.value))];
          EvolvesUpdate(actors, id, actors'[id]);
          if finished {
            return;
          }
          refreshed := true;
        }
      }
    }
  }
}
