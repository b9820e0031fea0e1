/**
 * Construction and placement of actors: the actors the map itself defines,
 * found by a row-major scan of the cell types, and the extra collectibles
 * listed in the configuration as `;`-separated `x-y` placements.
 */
module Factory {
  import opened Wrappers
  import opened Text
  import opened Board
  import opened Script

  /** The actor a map cell of type `t` spawns; the other types spawn nothing. */
  function SpawnKind(t: ElementType): Option<Kind>
  {
    match t
    case PusherCell => Some(Pusher)
    case TargetCell => Some(Target)
    case BoulderCell => Some(Rock)
    case BoosterCell => Some(Booster)
    case HardRockCell => Some(HardRock)
    case BomberCell => Some(Bomber)
    case _ => None
  }

  /** A newly added actor: visible and on the grid. */
  function Placed(k: Kind, p: Pos): Actor
  {
    Actor(k, p, true, true)
  }

  /** The number of iterations of `for (i = 0; i < n; i++)`. */
  function Span(n: int): nat
  {
    if n < 0 then 0 else n
  }

  function CellSpawn(g: Grid, p: Pos): seq<Actor>
  {
    match SpawnKind(Cell(g, p))
    case None => []
    case Some(k) => [Placed(k, p)]
  }

  /** The actors of row `y`, columns `0 .. n - 1`, left to right. */
  function RowSpawns(g: Grid, y: int, n: nat): (r: seq<Actor>)
    ensures |r| <= n
  {
    if n == 0 then [] else RowSpawns(g, y, n - 1) + CellSpawn(g, Pos(n - 1, y))
  }

  /** The actors of rows `0 .. m - 1`, top to bottom. */
  function GridSpawns(g: Grid, m: nat): seq<Actor>
  {
    if m == 0 then [] else GridSpawns(g, m - 1) + RowSpawns(g, m - 1, Span(g.width))
  }

  /** Everything `spawnGridActors` adds, in the order it adds it. */
  function AllGridSpawns(g: Grid): seq<Actor>
  {
    GridSpawns(g, Span(g.height))
  }

  /** Row-major order: an earlier row, or the same row further left. */
  predicate RowMajorBefore(p: Pos, q: Pos)
  {
    p.y < q.y || (p.y == q.y && p.x < q.x)
  }

  /** `a` is the actor spawned for its own cell: kind from the cell type, visible, on the grid. */
  predicate SpawnedFor(g: Grid, a: Actor)
  {
    SpawnKind(Cell(g, a.pos)).Some? && a == Placed(SpawnKind(Cell(g, a.pos)).value, a.pos)
  }

  // ---------------------------------------------------------------------------
  // The scan spawns exactly one actor per marked cell, in row-major order

  /** A row's actors belong to their own cells, lie in columns `0 .. n - 1` of that row and go left to right. */
  lemma {:induction false} RowSpawnsShape(g: Grid, y: int, n: nat)
    ensures forall i :: 0 <= i < |RowSpawns(g, y, n)| ==>
      SpawnedFor(g, RowSpawns(g, y, n)[i]) && RowSpawns(g, y, n)[i].pos.y == y &&
      0 <= RowSpawns(g, y, n)[i].pos.x < n
    ensures forall i, j :: 0 <= i < j < |RowSpawns(g, y, n)| ==>
      RowSpawns(g, y, n)[i].pos.x < RowSpawns(g, y, n)[j].pos.x
  {
    if n > 0 {
      RowSpawnsShape(g, y, n - 1);
      var r: seq<Actor>, c: seq<Actor> := RowSpawns(g, y, n - 1), CellSpawn(g, Pos(n - 1, y));
      assert RowSpawns(g, y, n) == r + c;
      assert forall i :: 0 <= i < |r| ==> (r + c)[i] == r[i];
    }
  }

  /** Every marked cell of columns `0 .. n - 1` of the row has an actor. */
  lemma {:induction false} RowSpawnsComplete(g: Grid, y: int, n: nat, x: int)
    requires 0 <= x < n && SpawnKind(Cell(g, Pos(x, y))).Some?
    ensures exists i :: 0 <= i < |RowSpawns(g, y, n)| && RowSpawns(g, y, n)[i].pos == Pos(x, y)
  {
    var r: seq<Actor>, c: seq<Actor> := RowSpawns(g, y, n - 1), CellSpawn(g, Pos(n - 1, y));
    assert RowSpawns(g, y, n) == r + c;
    if x == n - 1 {
      assert (r + c)[|r|].pos == Pos(x, y);
    } else {
      RowSpawnsComplete(g, y, n - 1, x);
      var i :| 0 <= i < |r| && r[i].pos == Pos(x, y);
      assert (r + c)[i] == r[i];
    }
  }

  /** All actors of the first `m` rows belong to their cells, lie inside and go in row-major order. */
  lemma {:induction false} GridSpawnsShape(g: Grid, m: nat)
    ensures forall i :: 0 <= i < |GridSpawns(g, m)| ==>
      SpawnedFor(g, GridSpawns(g, m)[i]) &&
      0 <= GridSpawns(g, m)[i].pos.y < m && 0 <= GridSpawns(g, m)[i].pos.x < Span(g.width)
    ensures forall i, j :: 0 <= i < j < |GridSpawns(g, m)| ==>
      RowMajorBefore(GridSpawns(g, m)[i].pos, GridSpawns(g, m)[j].pos)
  {
    GridSpawnsCells(g, m);
    GridSpawnsOrder(g, m);
  }

  /** An actor of the first `m` rows of the scan: its cell's own actor, inside those rows. */
  predicate InRows(g: Grid, m: int, a: Actor)
  {
    SpawnedFor(g, a) && 0 <= a.pos.y < m && 0 <= a.pos.x < Span(g.width)
  }

  /** A property of every element of two sequences holds of every element of their concatenation. */
  lemma ConcatEach<T>(P: T -> bool, s: seq<T>, r: seq<T>)
    requires forall i :: 0 <= i < |s| ==> P(s[i])
    requires forall i :: 0 <= i < |r| ==> P(r[i])
    ensures forall i :: 0 <= i < |s + r| ==> P((s + r)[i])
  {
    forall i | 0 <= i < |s + r|
      ensures P((s + r)[i])
    {
      if i >= |s| {
        assert (s + r)[i] == r[i - |s|];
      }
    }
  }

  /** Two ordered sequences, every element of the first before every element of the second, concatenate to an ordered one. */
  lemma ConcatOrdered<T>(R: (T, T) -> bool, s: seq<T>, r: seq<T>)
    requires forall i, j :: 0 <= i < j < |s| ==> R(s[i], s[j])
    requires forall i, j :: 0 <= i < j < |r| ==> R(r[i], r[j])
    requires forall i, j :: 0 <= i < |s| && 0 <= j < |r| ==> R(s[i], r[j])
    ensures forall i, j :: 0 <= i < j < |s + r| ==> R((s + r)[i], (s + r)[j])
  {
    forall i, j | 0 <= i < j < |s + r|
      ensures R((s + r)[i], (s + r)[j])
    {
      if j < |s| {
        assert (s + r)[i] == s[i] && (s + r)[j] == s[j];
      } else if i < |s| {
        assert (s + r)[i] == s[i] && (s + r)[j] == r[j - |s|];
      } else {
        assert (s + r)[i] == r[i - |s|] && (s + r)[j] == r[j - |s|];
      }
    }
  }

  lemma {:induction false} GridSpawnsCells(g: Grid, m: nat)
    ensures forall i :: 0 <= i < |GridSpawns(g, m)| ==> InRows(g, m, GridSpawns(g, m)[i])
  {
    if m > 0 {
      GridSpawnsCells(g, m - 1);
      var s: seq<Actor>, r: seq<Actor> := GridSpawns(g, m - 1), RowSpawns(g, m - 1, Span(g.width));
      RowSpawnsShape(g, m - 1, Span(g.width));
      assert GridSpawns(g, m) == s + r;
      assert forall i :: 0 <= i < |s| ==> InRows(g, m, s[i]);
      ConcatEach(a => InRows(g, m, a), s, r);
    }
  }

  lemma {:induction false} GridSpawnsOrder(g: Grid, m: nat)
    ensures forall i, j :: 0 <= i < j < |GridSpawns(g, m)| ==>
      RowMajorBefore(GridSpawns(g, m)[i].pos, GridSpawns(g, m)[j].pos)
  {
    if m > 0 {
      GridSpawnsOrder(g, m - 1);
      GridSpawnsCells(g, m - 1);
      var s: seq<Actor>, r: seq<Actor> := GridSpawns(g, m - 1), RowSpawns(g, m - 1, Span(g.width));
      RowSpawnsShape(g, m - 1, Span(g.width));
      assert GridSpawns(g, m) == s + r;
      ConcatOrdered((a: Actor, b: Actor) => RowMajorBefore(a.pos, b.pos), s, r);
    }
  }

  /** Every marked cell of the first `m` rows has an actor. */
  lemma {:induction false} GridSpawnsComplete(g: Grid, m: nat, p: Pos)
    requires 0 <= p.y < m && 0 <= p.x < Span(g.width) && SpawnKind(Cell(g, p)).Some?
    ensures exists i :: 0 <= i < |GridSpawns(g, m)| && GridSpawns(g, m)[i].pos == p
  {
    var s: seq<Actor>, r: seq<Actor> := GridSpawns(g, m - 1), RowSpawns(g, m - 1, Span(g.width));
    assert GridSpawns(g, m) == s + r;
    if p.y == m - 1 {
      RowSpawnsComplete(g, m - 1, Span(g.width), p.x);
      var i :| 0 <= i < |r| && r[i].pos == p;
      assert (s + r)[|s| + i] == r[i];
    } else {
      GridSpawnsComplete(g, m - 1, p);
      var i :| 0 <= i < |s| && s[i].pos == p;
      assert (s + r)[i] == s[i];
    }
  }

  /**
   * The whole scan: each actor is the one its in-grid cell's type calls for,
   * the actors go in row-major order (so no cell has two), and every cell
   * whose type spawns an actor has one.
   */
  lemma AllGridSpawnsExact(g: Grid, p: Pos)
    ensures forall i :: 0 <= i < |AllGridSpawns(g)| ==>
      SpawnedFor(g, AllGridSpawns(g)[i]) &&
      0 <= AllGridSpawns(g)[i].pos.x < Span(g.width) && 0 <= AllGridSpawns(g)[i].pos.y < Span(g.height)
    ensures forall i, j :: 0 <= i < j < |AllGridSpawns(g)| ==>
      RowMajorBefore(AllGridSpawns(g)[i].pos, AllGridSpawns(g)[j].pos)
    ensures 0 <= p.x < Span(g.width) && 0 <= p.y < Span(g.height) && SpawnKind(Cell(g, p)).Some? ==>
      exists i :: 0 <= i < |AllGridSpawns(g)| && AllGridSpawns(g)[i].pos == p
  {
    GridSpawnsShape(g, Span(g.height));
    if 0 <= p.x < Span(g.width) && 0 <= p.y < Span(g.height) && SpawnKind(Cell(g, p)).Some? {
      GridSpawnsComplete(g, Span(g.height), p);
      var i :| 0 <= i < |GridSpawns(g, Span(g.height))| && GridSpawns(g, Span(g.height))[i].pos == p;
      assert AllGridSpawns(g)[i].pos == p;
    }
  }

  /** The slot of the last actor of kind `k` at index `lo` or later. */
  function LastFrom(s: seq<Actor>, k: Kind, lo: nat): (r: Option<nat>)
    ensures r.Some? ==> lo <= r.value < |s| && s[r.value].kind == k
    ensures r.Some? ==> forall j :: r.value < j < |s| ==> s[j].kind != k
    ensures r.None? ==> forall j :: lo <= j < |s| ==> s[j].kind != k
    decreases |s|
  {
    if |s| <= lo then None
    else if s[|s| - 1].kind == k then Some(|s| - 1)
    else LastFrom(s[..|s| - 1], k, lo)
  }

  /** Appending one actor: it becomes the last of its kind. */
  lemma LastFromAppend(s: seq<Actor>, a: Actor, k: Kind, lo: nat)
    requires lo <= |s|
    ensures LastFrom(s + [a], k, lo) == if a.kind == k then Some(|s|) else LastFrom(s, k, lo)
  {
    assert (s + [a])[..|s|] == s;
  }

  // ---------------------------------------------------------------------------
  // spawnGridActors

  /**
   * `spawnGridActors`: scan the map row by row and add the actor each cell
   * type calls for. The controller learns the last pusher and the last
   * bomber created (`onPusherCreated`, `onBomberCreated`).
   */
  method SpawnGridActors(g: Grid, actors: seq<Actor>) returns (actors': seq<Actor>, pusher: Option<nat>, bomber: Option<nat>)
    ensures actors' == actors + AllGridSpawns(g)
    ensures pusher == LastFrom(actors', Pusher, |actors|)
    ensures bomber == LastFrom(actors', Bomber, |actors|)
  {
    actors', pusher, bomber := actors, None, None;
    var h := Span(g.height);
    for y := 0 to h
      invariant actors' == actors + GridSpawns(g, y)
      invariant pusher == LastFrom(actors', Pusher, |actors|)
      invariant bomber == LastFrom(actors', Bomber, |actors|)
    {
      AppendAssoc(actors, GridSpawns(g, y), RowSpawns(g, y, Span(g.width)));
      actors', pusher, bomber := SpawnRow(g, y, actors', |actors|, pusher, bomber);
    }
  }

  /** One row of the scan, left to right. */
  method SpawnRow(g: Grid, y: int, actors: seq<Actor>, base: nat, pusher: Option<nat>, bomber: Option<nat>)
    returns (actors': seq<Actor>, pusher': Option<nat>, bomber': Option<nat>)
    requires base <= |actors|
    requires pusher == LastFrom(actors, Pusher, base) && bomber == LastFrom(actors, Bomber, base)
    ensures actors' == actors + RowSpawns(g, y, Span(g.width))
    ensures pusher' == LastFrom(actors', Pusher, base) && bomber' == LastFrom(actors', Bomber, base)
  {
    actors', pusher', bomber' := actors, pusher, bomber;
    var w := Span(g.width);
    for x := 0 to w
      invariant actors' == actors + RowSpawns(g, y, x)
      invariant pusher' == LastFrom(actors', Pusher, base) && bomber' == LastFrom(actors', Bomber, base)
    {
      AppendAssoc(actors, RowSpawns(g, y, x), CellSpawn(g, Pos(x, y)));
      actors', pusher', bomber' := SpawnCell(g, Pos(x, y), actors', base, pusher', bomber');
    }
  }

  /** The `switch` on one cell's type. */
  method SpawnCell(g: Grid, loc: Pos, actors: seq<Actor>, base: nat, pusher: Option<nat>, bomber: Option<nat>)
    returns (actors': seq<Actor>, pusher': Option<nat>, bomber': Option<nat>)
    requires base <= |actors|
    requires pusher == LastFrom(actors, Pusher, base) && bomber == LastFrom(actors, Bomber, base)
    ensures actors' == actors + CellSpawn(g, loc)
    ensures pusher' == LastFrom(actors', Pusher, base) && bomber' == LastFrom(actors', Bomber, base)
  {
    actors', pusher', bomber' := actors, pusher, bomber;
    var t := SpawnKind(Cell(g, loc));
    if t.None? {
      assert actors + [] == actors;
      return;
    }
    var a := Placed(t.value, loc);
    LastFromAppend(actors, a, Pusher, base);
    LastFromAppend(actors, a, Bomber, base);
    if t.value == Pusher {
      pusher' := Some(|actors|);
    } else if t.value == Bomber {
      bomber' := Some(|actors|);
    }
    actors' := actors + [a];
  }

  // ---------------------------------------------------------------------------
  // spawnExtra

  /** Actors of kind `k` at the listed cells, in list order. */
  function PlaceAll(k: Kind, ps: seq<Pos>): (r: seq<Actor>)
    ensures |r| == |ps|
  {
    if ps == [] then [] else PlaceAll(k, ps[..|ps| - 1]) + [Placed(k, ps[|ps| - 1])]
  }

  lemma {:induction false} PlaceAllAt(k: Kind, ps: seq<Pos>)
    ensures forall i :: 0 <= i < |ps| ==> PlaceAll(k, ps)[i] == Placed(k, ps[i])
  {
    if ps != [] {
      PlaceAllAt(k, ps[..|ps| - 1]);
    }
  }

  /** The extra collectibles three placement lists call for: ores, then fuel, then boosters. */
  function ExtraSpawns(ore: string, fuel: string, booster: string): Option<seq<Actor>>
  {
    match (PlacementList(ore), PlacementList(fuel), PlacementList(booster))
    case (Some(os), Some(fs), Some(bs)) => Some(PlaceAll(Ore, os) + PlaceAll(Fuel, fs) + PlaceAll(Booster, bs))
    case _ => None
  }

  /**
   * Cells written out as placement lists spawn exactly one actor per cell,
   * ores first, then fuel, then boosters; an empty list spawns nothing.
   */
  lemma ExtraSpawnsRoundTrip(os: seq<Pos>, fs: seq<Pos>, bs: seq<Pos>)
    requires forall i :: 0 <= i < |os| ==> Writable(os[i])
    requires forall i :: 0 <= i < |fs| ==> Writable(fs[i])
    requires forall i :: 0 <= i < |bs| ==> Writable(bs[i])
    ensures ExtraSpawns(Join(CellStrings(os), ';'), Join(CellStrings(fs), ';'), Join(CellStrings(bs), ';'))
      == Some(PlaceAll(Ore, os) + PlaceAll(Fuel, fs) + PlaceAll(Booster, bs))
  {
    PlacementRoundTrip(os);
    PlacementRoundTrip(fs);
    PlacementRoundTrip(bs);
  }

  /** A list with an entry Java cannot read is not spawned. */
  lemma PlacementsFail(entries: seq<string>, i: nat)
    requires i < |entries| && ParsePlacement(entries[i]).None?
    ensures ParsePlacements(entries).None?
  {
  }

  lemma PlaceAllSnoc(k: Kind, ps: seq<Pos>, p: Pos)
    ensures PlaceAll(k, ps + [p]) == PlaceAll(k, ps) + [Placed(k, p)]
  {
    assert (ps + [p])[..|ps|] == ps;
  }

  lemma AppendAssoc(a: seq<Actor>, b: seq<Actor>, c: seq<Actor>)
    ensures (a + b) + c == a + (b + c)
  {
  }

  /** One placement list: every entry is parsed as Java parses it and spawns one actor of kind `k`. */
  method SpawnList(k: Kind, s: string, actors: seq<Actor>) returns (r: Option<seq<Actor>>)
    ensures r == match PlacementList(s) case None => None case Some(ps) => Some(actors + PlaceAll(k, ps))
  {
    if s == "" {
      assert actors + PlaceAll(k, []) == actors;
      return Some(actors);
    }
    r := SpawnEntries(k, Split(s, ';'), actors);
  }

  /** The loop over the `;`-separated entries of one list. */
  method SpawnEntries(k: Kind, entries: seq<string>, actors: seq<Actor>) returns (r: Option<seq<Actor>>)
    ensures r == match ParsePlacements(entries) case None => None case Some(ps) => Some(actors + PlaceAll(k, ps))
  {
    var acc := actors;
    ghost var ps: seq<Pos> := [];
    for i := 0 to |entries|
      invariant |ps| == i && acc == actors + PlaceAll(k, ps)
      invariant forall j :: 0 <= j < i ==> ParsePlacement(entries[j]) == Some(ps[j])
    {
      var xy := ParsePlacement(entries[i]);
      if xy.None? {
        PlacementsFail(entries, i);
        return None;
      }
      PlaceAllSnoc(k, ps, xy.value);
      AppendAssoc(actors, PlaceAll(k, ps), [Placed(k, xy.value)]);
      acc := acc + [Placed(k, xy.value)];
      ghost var ps' := ps + [xy.value];
      forall j | 0 <= j < i + 1
        ensures ParsePlacement(entries[j]) == Some(ps'[j])
      {
        if j < i {
          assert ps'[j] == ps[j];
        }
      }
      ps := ps';
    }
    PlacementsFromParts(entries, ps);
    return Some(acc);
  }

  /** `spawnExtra`: the ore list, then the fuel list, then the booster list. `None` where Java throws. */
  method SpawnExtra(ore: string, fuel: string, booster: string, actors: seq<Actor>) returns (r: Option<seq<Actor>>)
    ensures r == match ExtraSpawns(ore, fuel, booster) case None => None case Some(e) => Some(actors + e)
  {
    var a1 := SpawnList(Ore, ore, actors);
    if a1.None? {
      return None;
    }
    var a2 := SpawnList(Fuel, fuel, a1.value);
    if a2.None? {
      return None;
    }
    var a3 := SpawnList(Booster, booster, a2.value);
    if a3.None? {
      return None;
    }
    ghost var os, fs, bs := PlaceAll(Ore, PlacementList(ore).value), PlaceAll(Fuel, PlacementList(fuel).value),
      PlaceAll(Booster, PlacementList(booster).value);
    AppendAssoc(actors, os, fs);
    AppendAssoc(actors, os + fs, bs);
    return a3;
  }
}
