/**
 * The game grid: static cell types of the map and the registry of actors
 * standing on it. The registry is JGameGrid's list of actors in the order
 * they were added; an actor removed from the grid stays in the sequence with
 * `onGrid == false`, so an index names the same actor for a whole game.
 */
module Board {
  import opened Wrappers

  datatype Pos = Pos(x: int, y: int)

  /** JGameGrid compass directions used for facing and pushing. */
  datatype Dir = North | East | South | West

  /** One cell further in direction `d` (y grows to the south). */
  function Neighbour(p: Pos, d: Dir): (q: Pos)
    ensures Adjacent(p, q)
  {
    match d
    case East => Pos(p.x + 1, p.y)
    case West => Pos(p.x - 1, p.y)
    case South => Pos(p.x, p.y + 1)
    case North => Pos(p.x, p.y - 1)
  }

  /** Orthogonal neighbours: one coordinate equal, the other one apart. */
  predicate Adjacent(p: Pos, q: Pos)
  {
    (p.x == q.x && (p.y - q.y == 1 || q.y - p.y == 1)) ||
    (p.y == q.y && (p.x - q.x == 1 || q.x - p.x == 1))
  }

  /** The map symbols of the grid file (`MineMaze.ElementType`). */
  datatype ElementType =
    | Outside | Empty | Border | PusherCell | OreCell | BoulderCell | TargetCell
    | BombMarkerCell | BoosterCell | HardRockCell | BomberCell

  /** The actor classes that `getOneActorAt` and `getActors` look for. */
  datatype Kind = Wall | Rock | HardRock | Ore | Fuel | Booster | Target | Pusher | Bomber | BombMarker

  datatype Actor = Actor(kind: Kind, pos: Pos, visible: bool, onGrid: bool)

  /** A map of `width` x `height` cells, `cells[y][x]`. */
  datatype Grid = Grid(width: int, height: int, cells: seq<seq<ElementType>>)

  predicate WellFormed(g: Grid)
  {
    g.width >= 0 && g.height >= 0 && |g.cells| == g.height &&
    forall y :: 0 <= y < |g.cells| ==> |g.cells[y]| == g.width
  }

  predicate InGrid(g: Grid, p: Pos)
  {
    0 <= p.x < g.width && 0 <= p.y < g.height
  }

  /** `MapGrid.getCell`; a cell off the map reads as `Outside`. */
  function Cell(g: Grid, p: Pos): (t: ElementType)
    ensures WellFormed(g) && !InGrid(g, p) ==> t == Outside
  {
    if 0 <= p.y < |g.cells| && 0 <= p.x < |g.cells[p.y]| then g.cells[p.y][p.x] else Outside
  }

  /** The background shows the border colour exactly on BORDER cells (see `Creator.DrawBoard`). */
  predicate IsBorder(g: Grid, p: Pos)
  {
    Cell(g, p) == Border
  }

  predicate Matches(a: Actor, p: Pos, k: Kind)
  {
    a.onGrid && a.kind == k && a.pos == p
  }

  /**
   * `getOneActorAt(p, k)`: an actor of kind `k` on cell `p`, hidden or not;
   * the model takes the one added first.
   */
  function FindAt(actors: seq<Actor>, p: Pos, k: Kind): (r: Option<nat>)
    ensures r.Some? ==> r.value < |actors| && Matches(actors[r.value], p, k)
    ensures r.Some? ==> forall j :: 0 <= j < r.value ==> !Matches(actors[j], p, k)
    ensures r.None? <==> forall j :: 0 <= j < |actors| ==> !Matches(actors[j], p, k)
  {
    if |actors| == 0 then None
    else if Matches(actors[0], p, k) then Some(0)
    else match FindAt(actors[1..], p, k)
      case None => None
      case Some(i) => Some(i + 1)
  }

  predicate Has(actors: seq<Actor>, p: Pos, k: Kind)
  {
    FindAt(actors, p, k).Some?
  }

  /** Two registries that agree on which slots match `(p, k)` give the same lookup. */
  lemma FindAtSame(a: seq<Actor>, b: seq<Actor>, p: Pos, k: Kind)
    requires |a| == |b|
    requires forall i :: 0 <= i < |a| ==> (Matches(a[i], p, k) <==> Matches(b[i], p, k))
    ensures FindAt(a, p, k) == FindAt(b, p, k)
  {
    var ra, rb := FindAt(a, p, k), FindAt(b, p, k);
    if ra.Some? && rb.Some? {
      assert Matches(b[ra.value], p, k) && Matches(a[rb.value], p, k);
    }
  }

  /** Appending an actor adds a match only at its own cell and kind. */
  lemma HasAppend(actors: seq<Actor>, a: Actor, p: Pos, k: Kind)
    ensures Has(actors + [a], p, k) <==> Has(actors, p, k) || Matches(a, p, k)
  {
    var s := actors + [a];
    if Has(actors, p, k) {
      var i := FindAt(actors, p, k).value;
      assert Matches(s[i], p, k);
    } else if Matches(a, p, k) {
      assert Matches(s[|actors|], p, k);
    } else {
      forall j | 0 <= j < |s| ensures !Matches(s[j], p, k) {
        if j < |actors| { assert s[j] == actors[j]; }
      }
    }
  }

  /** The two controllable kinds, which are never removed from the grid. */
  predicate IsUnit(k: Kind)
  {
    k == Pusher || k == Bomber
  }

  /** Replacing one actor by one of the same kind that is not newly placed keeps the registry evolving. */
  lemma EvolvesUpdate(a: seq<Actor>, i: nat, x: Actor)
    requires i < |a| && x.kind == a[i].kind && (x.onGrid ==> a[i].onGrid)
    requires IsUnit(a[i].kind) ==> x.onGrid == a[i].onGrid
    ensures Evolves(a, a[i := x])
  {
  }

  /**
   * How the registry may change during a game: no actor is added or changes
   * kind, a removed actor stays removed, and the pusher and bomber are never
   * removed.
   */
  predicate Evolves(a: seq<Actor>, b: seq<Actor>)
  {
    |a| == |b| &&
    forall i :: 0 <= i < |a| ==>
      b[i].kind == a[i].kind && (b[i].onGrid ==> a[i].onGrid) &&
      (IsUnit(a[i].kind) ==> b[i].onGrid == a[i].onGrid)
  }

  lemma EvolvesTrans(a: seq<Actor>, b: seq<Actor>, c: seq<Actor>)
    requires Evolves(a, b) && Evolves(b, c)
    ensures Evolves(a, c)
  {
  }

  /** Slot `id` holds the pusher, or the bomber, still on the grid. */
  predicate UnitAt(actors: seq<Actor>, id: nat, k: Kind)
  {
    id < |actors| && actors[id].kind == k && actors[id].onGrid
  }

  lemma UnitAtEvolves(a: seq<Actor>, b: seq<Actor>, id: nat, k: Kind)
    requires Evolves(a, b) && UnitAt(a, id, k) && IsUnit(k)
    ensures UnitAt(b, id, k)
  {
  }
}
