/**
 * A bomb: a fuse that counts down while the bomb is both active and armed,
 * and an explosion that clears hard rocks and rocks on a cross of five cells
 * and uncovers the ore, boosters and fuel lying there.
 */
module Bombs {
  import opened Wrappers
  import opened Board
  import opened Rules

  /** The fields of a bomb: its cell, remaining fuse ticks, blast radius and the two flags. */
  datatype BombState = BombState(pos: Pos, fuse: int, radius: int, active: bool, armed: bool)

  /** The cells hit, in the order of the direction offsets: centre, up, down, left, right. */
  function Cross(c: Pos, r: int): seq<Pos>
  {
    [c, Pos(c.x, c.y - r), Pos(c.x, c.y + r), Pos(c.x - r, c.y), Pos(c.x + r, c.y)]
  }

  /** `removeActor` on the actor found by a lookup, if there was one. */
  function Clear(a: seq<Actor>, r: Option<nat>): (b: seq<Actor>)
    requires r.Some? ==> r.value < |a|
    ensures |b| == |a|
  {
    if r.None? then a else a[r.value := a[r.value].(onGrid := false)]
  }

  /** `show` on the actor found by a lookup, if there was one. */
  function Light(a: seq<Actor>, r: Option<nat>): (b: seq<Actor>)
    requires r.Some? ==> r.value < |a|
    ensures |b| == |a|
  {
    if r.None? then a else a[r.value := a[r.value].(visible := true)]
  }

  /**
   * One cell of the explosion: look up a hard rock and a rock, remove them,
   * then look up an ore, a booster and a fuel and show them.
   */
  function BlastCell(a: seq<Actor>, p: Pos): (b: seq<Actor>)
    ensures |b| == |a|
  {
    var hardRock := FindAt(a, p, HardRock);
    var boulder := FindAt(a, p, Rock);
    var a1 := Clear(Clear(a, hardRock), boulder);
    var ore := FindAt(a1, p, Ore);
    var booster := FindAt(a1, p, Booster);
    var fuel := FindAt(a1, p, Fuel);
    Light(Light(Light(a1, ore), booster), fuel)
  }

  /** The explosion over a list of cells, one cell after the other. */
  function Blast(a: seq<Actor>, cells: seq<Pos>): (b: seq<Actor>)
    ensures |b| == |a|
    decreases |cells|
  {
    if cells == [] then a
    else BlastCell(Blast(a, cells[..|cells| - 1]), cells[|cells| - 1])
  }

  /** `explode`: only an active bomb explodes, and it is inactive afterwards. */
  function ExplodeBomb(b: BombState, a: seq<Actor>): (BombState, seq<Actor>)
  {
    if !b.active then (b, a)
    else (b.(active := false), Blast(a, Cross(b.pos, b.radius)))
  }

  /** `tick`: a live bomb burns one fuse tick and explodes once the fuse is used up. */
  function TickBomb(b: BombState, a: seq<Actor>): (BombState, seq<Actor>)
  {
    if !b.active || !b.armed then (b, a)
    else
      var b1 := b.(fuse := b.fuse - 1);
      if b1.fuse <= 0 then ExplodeBomb(b1, a) else (b1, a)
  }

  /** `k` ticks in a row. */
  function Ticks(b: BombState, a: seq<Actor>, k: nat): (BombState, seq<Actor>)
  {
    if k == 0 then (b, a)
    else
      var s := Ticks(b, a, k - 1);
      TickBomb(s.0, s.1)
  }

  // ---------------------------------------------------------------------------
  // The fuse

  /** A second explosion changes nothing, and the bomb is no longer active. */
  lemma ExplodeIdempotent(b: BombState, a: seq<Actor>)
    ensures !ExplodeBomb(b, a).0.active
    ensures ExplodeBomb(ExplodeBomb(b, a).0, ExplodeBomb(b, a).1) == ExplodeBomb(b, a)
  {
  }

  /** Once exploded, a bomb ignores further ticks. */
  lemma TickAfterExplode(b: BombState, a: seq<Actor>)
    ensures TickBomb(ExplodeBomb(b, a).0, ExplodeBomb(b, a).1) == ExplodeBomb(b, a)
  {
  }

  /** A bomb that is inactive or not armed ignores ticks. */
  lemma TickIdle(b: BombState, a: seq<Actor>)
    requires !b.active || !b.armed
    ensures TickBomb(b, a) == (b, a)
  {
  }

  /** Before the fuse runs out, each tick takes exactly one tick off and touches nothing. */
  lemma {:induction false} TicksCountdown(b: BombState, a: seq<Actor>, k: nat)
    requires b.active && b.armed && k < b.fuse
    ensures Ticks(b, a, k) == (b.(fuse := b.fuse - k), a)
  {
    if k > 0 {
      TicksCountdown(b, a, k - 1);
    }
  }

  /** An armed bomb with a fuse of `n >= 1` is still live after `n - 1` ticks and explodes on tick `n`. */
  lemma ExplodesOnNthTick(b: BombState, a: seq<Actor>, n: nat)
    requires b.active && b.armed && b.fuse == n && n >= 1
    ensures Ticks(b, a, n - 1).0.active && Ticks(b, a, n - 1).1 == a
    ensures Ticks(b, a, n) == (b.(fuse := 0, active := false), Blast(a, Cross(b.pos, b.radius)))
  {
    TicksCountdown(b, a, n - 1);
  }

  // ---------------------------------------------------------------------------
  // The blast

  /** Replacing an actor by one that matches `(p, k)` exactly when it did keeps the lookup. */
  lemma FindAtUpdate(a: seq<Actor>, i: nat, x: Actor, p: Pos, k: Kind)
    requires i < |a|
    requires Matches(x, p, k) <==> Matches(a[i], p, k)
    ensures FindAt(a[i := x], p, k) == FindAt(a, p, k)
  {
    FindAtSame(a[i := x], a, p, k);
  }

  /** Removing one kind leaves the lookups of every other kind as they were. */
  lemma ClearKeepsOthers(a: seq<Actor>, r: Option<nat>, p: Pos, k: Kind)
    requires r.Some? ==> r.value < |a| && a[r.value].kind != k
    ensures FindAt(Clear(a, r), p, k) == FindAt(a, p, k)
  {
    if r.Some? {
      FindAtUpdate(a, r.value, a[r.value].(onGrid := false), p, k);
    }
  }

  /** Showing an actor never changes any lookup. */
  lemma LightKeeps(a: seq<Actor>, r: Option<nat>, p: Pos, k: Kind)
    requires r.Some? ==> r.value < |a|
    ensures FindAt(Light(a, r), p, k) == FindAt(a, p, k)
  {
    if r.Some? {
      FindAtUpdate(a, r.value, a[r.value].(visible := true), p, k);
    }
  }

  /**
   * One blasted cell: nothing moves or changes kind; exactly the first hard
   * rock and the first rock on the cell leave the grid; exactly the first
   * ore, booster and fuel on the cell become visible; every other actor is
   * left as it was.
   */
  lemma BlastCellEffect(a: seq<Actor>, p: Pos)
    ensures |BlastCell(a, p)| == |a|
    ensures forall i :: 0 <= i < |a| ==>
      BlastCell(a, p)[i].kind == a[i].kind && BlastCell(a, p)[i].pos == a[i].pos
    ensures forall i :: 0 <= i < |a| ==>
      (BlastCell(a, p)[i].onGrid <==>
        a[i].onGrid && FindAt(a, p, HardRock) != Some(i) && FindAt(a, p, Rock) != Some(i))
    ensures forall i :: 0 <= i < |a| ==>
      (BlastCell(a, p)[i].visible <==>
        a[i].visible || FindAt(a, p, Ore) == Some(i) ||
        FindAt(a, p, Booster) == Some(i) || FindAt(a, p, Fuel) == Some(i))
  {
    var hardRock := FindAt(a, p, HardRock);
    var boulder := FindAt(a, p, Rock);
    var a0 := Clear(a, hardRock);
    var a1 := Clear(a0, boulder);
    forall k | k == Ore || k == Booster || k == Fuel
      ensures FindAt(a1, p, k) == FindAt(a, p, k)
    {
      ClearKeepsOthers(a, hardRock, p, k);
      ClearKeepsOthers(a0, boulder, p, k);
    }
    var ore := FindAt(a, p, Ore);
    var booster := FindAt(a, p, Booster);
    var fuel := FindAt(a, p, Fuel);
    var a2 := Light(a1, ore);
    var a3 := Light(a2, booster);
    var a4 := Light(a3, fuel);
    assert BlastCell(a, p) == a4;
    ClearIndex(a, hardRock);
    ClearIndex(a0, boulder);
    LightIndex(a1, ore);
    LightIndex(a2, booster);
    LightIndex(a3, fuel);
  }

  lemma ClearIndex(a: seq<Actor>, r: Option<nat>)
    requires r.Some? ==> r.value < |a|
    ensures forall i :: 0 <= i < |a| ==>
      Clear(a, r)[i].kind == a[i].kind && Clear(a, r)[i].pos == a[i].pos &&
      Clear(a, r)[i].visible == a[i].visible && (Clear(a, r)[i].onGrid <==> a[i].onGrid && r != Some(i))
  {
  }

  lemma LightIndex(a: seq<Actor>, r: Option<nat>)
    requires r.Some? ==> r.value < |a|
    ensures forall i :: 0 <= i < |a| ==>
      Light(a, r)[i].kind == a[i].kind && Light(a, r)[i].pos == a[i].pos &&
      Light(a, r)[i].onGrid == a[i].onGrid && (Light(a, r)[i].visible <==> a[i].visible || r == Some(i))
  {
  }

  /**
   * The whole blast: no actor moves, changes kind or reappears; a shown actor
   * stays shown; and an actor on a cell outside the list is left as it was.
   */
  lemma {:induction false} BlastEffect(a: seq<Actor>, cells: seq<Pos>)
    ensures Evolves(a, Blast(a, cells))
    ensures forall i :: 0 <= i < |a| ==>
      Blast(a, cells)[i].pos == a[i].pos && (a[i].visible ==> Blast(a, cells)[i].visible)
    ensures forall i :: 0 <= i < |a| && a[i].pos !in cells ==> Blast(a, cells)[i] == a[i]
    decreases |cells|
  {
    if cells != [] {
      var init, q := cells[..|cells| - 1], cells[|cells| - 1];
      BlastEffect(a, init);
      var m := Blast(a, init);
      BlastCellEffect(m, q);
      forall i | 0 <= i < |a| && a[i].pos !in cells
        ensures Blast(a, cells)[i] == a[i]
      {
        assert a[i].pos !in init;
        assert m[i] == a[i];
        assert FindAt(m, q, HardRock) != Some(i) && FindAt(m, q, Rock) != Some(i);
        assert FindAt(m, q, Ore) != Some(i) && FindAt(m, q, Booster) != Some(i) && FindAt(m, q, Fuel) != Some(i);
      }
    }
  }

  lemma BlastCellKeepsRemoved(m: seq<Actor>, q: Pos, i: nat)
    requires i < |m| && !m[i].onGrid
    ensures !BlastCell(m, q)[i].onGrid
  {
    BlastCellEffect(m, q);
  }

  lemma BlastCellRemovesFirst(m: seq<Actor>, q: Pos, k: Kind)
    requires (k == HardRock || k == Rock) && Has(m, q, k)
    ensures !BlastCell(m, q)[FindAt(m, q, k).value].onGrid
  {
    BlastCellEffect(m, q);
  }

  lemma BlastCellKeepsShown(m: seq<Actor>, q: Pos, i: nat)
    requires i < |m| && m[i].visible
    ensures BlastCell(m, q)[i].visible
  {
    BlastCellEffect(m, q);
  }

  lemma BlastCellShowsFirst(m: seq<Actor>, q: Pos, k: Kind)
    requires (k == Ore || k == Booster || k == Fuel) && Has(m, q, k)
    ensures BlastCell(m, q)[FindAt(m, q, k).value].visible
  {
    BlastCellEffect(m, q);
  }

  /** A blast over cells that avoid `p` keeps every lookup on `p`. */
  lemma BlastKeepsElsewhere(a: seq<Actor>, cells: seq<Pos>, p: Pos, k: Kind)
    requires p !in cells
    ensures FindAt(Blast(a, cells), p, k) == FindAt(a, p, k)
  {
    BlastEffect(a, cells);
    var r := Blast(a, cells);
    forall i | 0 <= i < |a| ensures Matches(r[i], p, k) <==> Matches(a[i], p, k) {
      if a[i].pos == p {
        assert r[i] == a[i];
      }
    }
    FindAtSame(r, a, p, k);
  }

  lemma InitOrLast(cells: seq<Pos>)
    requires cells != []
    ensures forall x :: x in cells ==> x in cells[..|cells| - 1] || x == cells[|cells| - 1]
  {
    forall x | x in cells
      ensures x in cells[..|cells| - 1] || x == cells[|cells| - 1]
    {
      var j :| 0 <= j < |cells| && cells[j] == x;
      if j < |cells| - 1 {
        assert cells[..|cells| - 1][j] == x;
      }
    }
  }

  /** On every blasted cell the first hard rock and the first rock are gone afterwards. */
  lemma {:induction false} BlastRemoves(a: seq<Actor>, cells: seq<Pos>, p: Pos, k: Kind)
    requires p in cells && (k == HardRock || k == Rock) && Has(a, p, k)
    ensures !Blast(a, cells)[FindAt(a, p, k).value].onGrid
    decreases |cells|
  {
    var init, q := cells[..|cells| - 1], cells[|cells| - 1];
    var i := FindAt(a, p, k).value;
    var m := Blast(a, init);
    assert Blast(a, cells) == BlastCell(m, q);
    if p in init {
      BlastRemoves(a, init, p, k);
      BlastCellKeepsRemoved(m, q, i);
    } else {
      InitOrLast(cells);
      BlastKeepsElsewhere(a, init, p, k);
      BlastCellRemovesFirst(m, q, k);
    }
  }

  /** On every blasted cell the first ore, booster and fuel are visible afterwards. */
  lemma {:induction false} BlastReveals(a: seq<Actor>, cells: seq<Pos>, p: Pos, k: Kind)
    requires p in cells && (k == Ore || k == Booster || k == Fuel) && Has(a, p, k)
    ensures Blast(a, cells)[FindAt(a, p, k).value].visible
    decreases |cells|
  {
    var init, q := cells[..|cells| - 1], cells[|cells| - 1];
    var i := FindAt(a, p, k).value;
    var m := Blast(a, init);
    assert Blast(a, cells) == BlastCell(m, q);
    if p in init {
      BlastReveals(a, init, p, k);
      BlastCellKeepsShown(m, q, i);
    } else {
      InitOrLast(cells);
      BlastKeepsElsewhere(a, init, p, k);
      BlastCellShowsFirst(m, q, k);
    }
  }

  /**
   * The explosion is a cross, not a square: an actor that is neither on the
   * bomb's cell nor on its row or column at distance `|radius|` is untouched.
   */
  lemma ExplodeSparesOffCross(b: BombState, a: seq<Actor>, i: nat)
    requires i < |a| && a[i].pos != b.pos
    requires (a[i].pos.x != b.pos.x && a[i].pos.y != b.pos.y) ||
             Dist(a[i].pos, b.pos) != Abs(b.radius)
    ensures ExplodeBomb(b, a).1[i] == a[i]
  {
    BlastEffect(a, Cross(b.pos, b.radius));
  }

  /** Manhattan distance. */
  function Dist(p: Pos, q: Pos): nat
  {
    Abs(p.x - q.x) + Abs(p.y - q.y)
  }

  // ---------------------------------------------------------------------------
  // The bomb as an object

  /** The explosion loop over the five direction offsets. */
  method BlastAround(actors: seq<Actor>, c: Pos, radius: int) returns (r: seq<Actor>)
    ensures r == Blast(actors, Cross(c, radius))
  {
    var directions := [(0, 0), (0, -radius), (0, radius), (-radius, 0), (radius, 0)];
    ghost var cells := Cross(c, radius);
    r := actors;
    for i := 0 to 5
      invariant r == Blast(actors, cells[..i])
    {
      var loc := Pos(c.x + directions[i].0, c.y + directions[i].1);
      assert loc == cells[i];
      BlastStep(actors, cells, i);
      r := BlastCellAt(r, loc);
    }
    assert cells[..5] == cells;
  }

  /** Blasting one more cell of a list is blasting the shorter prefix, then that cell. */
  lemma BlastStep(a: seq<Actor>, cells: seq<Pos>, i: nat)
    requires i < |cells|
    ensures Blast(a, cells[..i + 1]) == BlastCell(Blast(a, cells[..i]), cells[i])
  {
    assert cells[..i + 1][..i] == cells[..i];
  }

  /** The body of the explosion loop for one cell. */
  method BlastCellAt(actors: seq<Actor>, loc: Pos) returns (r: seq<Actor>)
    ensures r == BlastCell(actors, loc)
  {
    r := actors;
    var hardRock := FindAt(r, loc, HardRock);
    var boulder := FindAt(r, loc, Rock);
    if hardRock.Some? { r := r[hardRock.value := r[hardRock.value].(onGrid := false)]; }
    if boulder.Some? { r := r[boulder.value := r[boulder.value].(onGrid := false)]; }
    var ore := FindAt(r, loc, Ore);
    var booster := FindAt(r, loc, Booster);
    var fuel := FindAt(r, loc, Fuel);
    if ore.Some? { r := r[ore.value := r[ore.value].(visible := true)]; }
    if booster.Some? { r := r[booster.value := r[booster.value].(visible := true)]; }
    if fuel.Some? { r := r[fuel.value := r[fuel.value].(visible := true)]; }
  }

  class Bomb {
    const location: Pos
    var fuseTicksRemaining: int
    const explosionRadius: int
    var isActive: bool
    var isArmed: bool

    function State(): BombState
      reads this
    {
      BombState(location, fuseTicksRemaining, explosionRadius, isActive, isArmed)
    }

    /** A new bomb is active and not yet armed. */
    constructor (location: Pos, fuseTicks: int, explosionRadius: int)
      ensures State() == BombState(location, fuseTicks, explosionRadius, true, false)
    {
      this.location := location;
      this.fuseTicksRemaining := fuseTicks;
      this.explosionRadius := explosionRadius;
      this.isActive := true;
      this.isArmed := false;
    }

    /** Using the bomb arms it. */
    method Use()
      modifies this`isArmed
      ensures State() == old(State()).(armed := true)
    {
      Arm();
    }

    method Arm()
      modifies this`isArmed
      ensures State() == old(State()).(armed := true)
    {
      isArmed := true;
    }

    method Tick(actors: seq<Actor>) returns (actors': seq<Actor>)
      modifies this`fuseTicksRemaining, this`isActive
      ensures (State(), actors') == TickBomb(old(State()), actors)
    {
      actors' := actors;
      if !isActive || !isArmed {
        return;
      }
      fuseTicksRemaining := fuseTicksRemaining - 1;
      if fuseTicksRemaining <= 0 {
        actors' := Explode(actors);
      }
    }

    method Explode(actors: seq<Actor>) returns (actors': seq<Actor>)
      modifies this`isActive
      ensures (State(), actors') == ExplodeBomb(old(State()), actors)
    {
      actors' := actors;
      if !isActive {
        return;
      }
      isActive := false;
      actors' := BlastAround(actors, location, explosionRadius);
    }

    function IsActive(): bool
      reads this
    {
      isActive
    }
  }
}
