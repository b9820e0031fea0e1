/**
 * The board creator: it paints the static background, then spawns the
 * configured extras and the map's own actors, in that order.
 */
module Creator {
  import opened Wrappers
  import opened Board
  import opened Factory

  datatype Colour = Colour(r: int, g: int, b: int)

  /** The colour `bg.clear` fills the whole background with. */
  const ClearColour := Colour(230, 230, 230)
  /** `Color.lightGray`, the colour of every cell inside the map. */
  const LightGray := Colour(192, 192, 192)
  /** `MineMaze.borderColor`. */
  const GameBorderColour := Colour(100, 100, 100)

  /** The colour a cell of type `t` ends up with after `drawBoard`. */
  function PaintedColour(t: ElementType, border: Colour): Colour
  {
    if t == Border then border
    else if t != Outside then LightGray
    else ClearColour
  }

  /**
   * With a border colour distinct from the two greys, a cell shows the border
   * colour exactly when its type is BORDER. This is what lets the rules test
   * the cell type where the source compares background colours.
   */
  lemma BorderColourMeansBorder(t: ElementType, border: Colour)
    requires border != LightGray && border != ClearColour
    ensures PaintedColour(t, border) == border <==> t == Border
  {
  }

  /** The game's own border colour is such a colour. */
  lemma GameBorderColourIsDistinct()
    ensures GameBorderColour != LightGray && GameBorderColour != ClearColour
    ensures forall t :: PaintedColour(t, GameBorderColour) == GameBorderColour <==> t == Border
  {
    forall t ensures PaintedColour(t, GameBorderColour) == GameBorderColour <==> t == Border {
      BorderColourMeansBorder(t, GameBorderColour);
    }
  }

  /**
   * `drawBoard` on a background of one entry per cell, `bg[x, y]`: clear
   * everything, then paint each map cell light grey unless it is OUTSIDE, and
   * in the border colour if it is BORDER.
   */
  method DrawBoard(bg: array2<Colour>, g: Grid, border: Colour)
    requires bg.Length0 == Span(g.width) && bg.Length1 == Span(g.height)
    modifies bg
    ensures forall x, y :: 0 <= x < bg.Length0 && 0 <= y < bg.Length1 ==>
      bg[x, y] == PaintedColour(Cell(g, Pos(x, y)), border)
  {
    ClearBackground(bg, ClearColour);
    var w, h := Span(g.width), Span(g.height);
    for y := 0 to h
      invariant forall x', y' :: 0 <= x' < w && 0 <= y' < y ==>
        bg[x', y'] == PaintedColour(Cell(g, Pos(x', y')), border)
      invariant forall x', y' :: 0 <= x' < w && y <= y' < h ==> bg[x', y'] == ClearColour
    {
      for x := 0 to w
        invariant forall x', y' :: 0 <= x' < w && 0 <= y' < y ==>
          bg[x', y'] == PaintedColour(Cell(g, Pos(x', y')), border)
        invariant forall x' :: 0 <= x' < x ==> bg[x', y] == PaintedColour(Cell(g, Pos(x', y)), border)
        invariant forall x', y' :: 0 <= x' < w && y <= y' < h && (y' != y || x <= x') ==> bg[x', y'] == ClearColour
      {
        var t := Cell(g, Pos(x, y));
        if t != Outside {
          bg[x, y] := LightGray;
        }
        if t == Border {
          bg[x, y] := border;
        }
      }
    }
  }

  /** `bg.clear(c)`. */
  method ClearBackground(bg: array2<Colour>, c: Colour)
    modifies bg
    ensures forall x, y :: 0 <= x < bg.Length0 && 0 <= y < bg.Length1 ==> bg[x, y] == c
  {
    for x := 0 to bg.Length0
      invariant forall x', y :: 0 <= x' < x && 0 <= y < bg.Length1 ==> bg[x', y] == c
    {
      for y := 0 to bg.Length1
        invariant forall x', y' :: 0 <= x' < x && 0 <= y' < bg.Length1 ==> bg[x', y'] == c
        invariant forall y' :: 0 <= y' < y ==> bg[x, y'] == c
      {
        bg[x, y] := c;
      }
    }
  }

  /** A configuration string that may be missing; `null` reads like the empty list. */
  function OrEmpty(s: Option<string>): string
  {
    if s.None? then "" else s.value
  }

  /**
   * `spawnExtras`: like `ActorFactory.spawnExtra`, except that a missing
   * (null) list spawns nothing instead of failing.
   */
  method SpawnExtras(ore: Option<string>, fuel: Option<string>, booster: Option<string>, actors: seq<Actor>)
    returns (r: Option<seq<Actor>>)
    ensures r == match ExtraSpawns(OrEmpty(ore), OrEmpty(fuel), OrEmpty(booster))
      case None => None case Some(e) => Some(actors + e)
  {
    r := SpawnExtra(OrEmpty(ore), OrEmpty(fuel), OrEmpty(booster), actors);
  }

  /** `spawnGridActors`: the same row-major scan and cell-type mapping as the factory's. */
  method SpawnGridActors(g: Grid, actors: seq<Actor>) returns (actors': seq<Actor>, pusher: Option<nat>, bomber: Option<nat>)
    ensures actors' == actors + AllGridSpawns(g)
    ensures pusher == LastFrom(actors', Pusher, |actors|) && bomber == LastFrom(actors', Bomber, |actors|)
  {
    actors', pusher, bomber := Factory.SpawnGridActors(g, actors);
  }

  /**
   * `setup`: draw the board, then spawn the extras, then the grid actors, so
   * the configured collectibles come first in the registry. `None` where a
   * placement list makes Java throw.
   */
  method Setup(bg: array2<Colour>, g: Grid, ore: Option<string>, fuel: Option<string>, booster: Option<string>)
    returns (r: Option<seq<Actor>>, pusher: Option<nat>, bomber: Option<nat>)
    requires bg.Length0 == Span(g.width) && bg.Length1 == Span(g.height)
    modifies bg
    ensures forall x, y :: 0 <= x < bg.Length0 && 0 <= y < bg.Length1 ==>
      bg[x, y] == PaintedColour(Cell(g, Pos(x, y)), GameBorderColour)
    ensures r == match ExtraSpawns(OrEmpty(ore), OrEmpty(fuel), OrEmpty(booster))
      case None => None case Some(e) => Some(e + AllGridSpawns(g))
    ensures r.Some? ==> pusher == LastFrom(r.value, Pusher, |r.value| - |AllGridSpawns(g)|)
    ensures r.Some? ==> bomber == LastFrom(r.value, Bomber, |r.value| - |AllGridSpawns(g)|)
  {
    DrawBoard(bg, g, GameBorderColour);
    r, pusher, bomber := SpawnAll(g, ore, fuel, booster);
  }

  /** Steps 2 and 3 of `setup`: the extras, then the grid actors. */
  method SpawnAll(g: Grid, ore: Option<string>, fuel: Option<string>, booster: Option<string>)
    returns (r: Option<seq<Actor>>, pusher: Option<nat>, bomber: Option<nat>)
    ensures r == match ExtraSpawns(OrEmpty(ore), OrEmpty(fuel), OrEmpty(booster))
      case None => None case Some(e) => Some(e + AllGridSpawns(g))
    ensures r.Some? ==> pusher == LastFrom(r.value, Pusher, |r.value| - |AllGridSpawns(g)|)
    ensures r.Some? ==> bomber == LastFrom(r.value, Bomber, |r.value| - |AllGridSpawns(g)|)
  {
    var extras := SpawnExtras(ore, fuel, booster, []);
    ghost var e := ExtraSpawns(OrEmpty(ore), OrEmpty(fuel), OrEmpty(booster));
    if extras.None? {
      assert e.None?;
      return None, None, None;
    }
    assert e.Some? && extras.value == [] + e.value;
    assert [] + e.value == e.value;
    var actors;
    actors, pusher, bomber := SpawnGridActors(g, extras.value);
    r := Some(actors);
  }
}
