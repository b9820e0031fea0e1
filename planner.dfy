/**
 * The pusher's path planner (`guideToLocation` / `guidePusherToLocation`):
 * a horizontal leg toward the target column, then a vertical leg toward the
 * target row, each cut short at the first cell the pusher may not enter.
 * The legs are defined for any passability test `ok`; the planner uses the
 * pusher's `canMove`.
 */
module Planner {
  import opened Board
  import opened Rules

  /** What `canMove` reads while a plan is built; none of it changes during planning. */
  datatype PlanContext = PlanContext(grid: Grid, actors: seq<Actor>, from: Pos, ready: bool, charges: int)

  predicate CanStep(c: PlanContext, p: Pos)
  {
    PusherCanMove(c.grid, c.actors, c.from, c.ready, c.charges, p)
  }

  function Passable(c: PlanContext): Pos -> bool
  {
    p => CanStep(c, p)
  }

  /** Up to `n` steps of `(dx, dy)` from `p`, stopping before the first cell `ok` refuses. */
  function Walk(ok: Pos -> bool, p: Pos, dx: int, dy: int, n: nat): (r: seq<Pos>)
    ensures |r| <= n
    decreases n
  {
    if n == 0 then []
    else
      var q := Pos(p.x + dx, p.y + dy);
      if ok(q) then [q] + Walk(ok, q, dx, dy, n - 1) else []
  }

  function Sign(a: int): int { Compare(a, 0) }

  /** The last cell reached: the start when nothing was walked. */
  function LegEnd(start: Pos, leg: seq<Pos>): Pos
  {
    if leg == [] then start else leg[|leg| - 1]
  }

  /** The cell before step `i` of a walk begun at `start`. */
  function Before(start: Pos, leg: seq<Pos>, i: nat): Pos
    requires i < |leg|
  {
    if i == 0 then start else leg[i - 1]
  }

  function HorizontalLeg(ok: Pos -> bool, start: Pos, target: Pos): seq<Pos>
  {
    if start.x != target.x then Walk(ok, start, Sign(target.x - start.x), 0, Abs(target.x - start.x)) else []
  }

  function VerticalLeg(ok: Pos -> bool, last: Pos, target: Pos): seq<Pos>
  {
    if last.y != target.y then Walk(ok, last, 0, Sign(target.y - last.y), Abs(target.y - last.y)) else []
  }

  /** The horizontal leg, then the vertical leg from where it ended. */
  function Route(ok: Pos -> bool, start: Pos, target: Pos): seq<Pos>
  {
    var h := HorizontalLeg(ok, start, target);
    h + VerticalLeg(ok, LegEnd(start, h), target)
  }

  /** The planned path of a pusher at `c.from` toward `target`. */
  function PlanPath(c: PlanContext, target: Pos): seq<Pos>
  {
    Route(Passable(c), c.from, target)
  }

  /** Each cell of `r` is one `(dx, dy)` step past the cell before it, and `ok` accepts it. */
  predicate Stepwise(ok: Pos -> bool, p: Pos, r: seq<Pos>, dx: int, dy: int)
  {
    forall i :: 0 <= i < |r| ==> r[i] == Pos(Before(p, r, i).x + dx, Before(p, r, i).y + dy) && ok(r[i])
  }

  /** Every cell of a walk is one `(dx, dy)` step past the cell before it and passed `ok`. */
  lemma {:induction false} WalkSteps(ok: Pos -> bool, p: Pos, dx: int, dy: int, n: nat)
    ensures Stepwise(ok, p, Walk(ok, p, dx, dy, n), dx, dy)
    decreases n
  {
    if n > 0 {
      var q := Pos(p.x + dx, p.y + dy);
      if ok(q) {
        WalkSteps(ok, q, dx, dy, n - 1);
        var rest := Walk(ok, q, dx, dy, n - 1);
        var r := Walk(ok, p, dx, dy, n);
        assert r == [q] + rest;
        forall i | 0 <= i < |r|
          ensures r[i] == Pos(Before(p, r, i).x + dx, Before(p, r, i).y + dy) && ok(r[i])
        {
          if i > 0 {
            assert r[i] == rest[i - 1];
            assert Before(p, r, i) == Before(q, rest, i - 1);
          }
        }
      }
    }
  }

  /** A walk shorter than `n` ends because the next cell is refused. */
  lemma {:induction false} WalkStops(ok: Pos -> bool, p: Pos, dx: int, dy: int, n: nat)
    ensures var r := Walk(ok, p, dx, dy, n);
      |r| < n ==> !ok(Pos(LegEnd(p, r).x + dx, LegEnd(p, r).y + dy))
    decreases n
  {
    if n > 0 {
      var q := Pos(p.x + dx, p.y + dy);
      if ok(q) {
        WalkStops(ok, q, dx, dy, n - 1);
        var rest := Walk(ok, q, dx, dy, n - 1);
        assert Walk(ok, p, dx, dy, n) == [q] + rest;
        assert LegEnd(p, [q] + rest) == LegEnd(q, rest);
      }
    }
  }

  /** A walk ends `|r|` steps from where it began. */
  lemma {:induction false} WalkEnd(ok: Pos -> bool, p: Pos, dx: int, dy: int, n: nat)
    ensures var r := Walk(ok, p, dx, dy, n);
      LegEnd(p, r) == Pos(p.x + |r| * dx, p.y + |r| * dy)
    decreases n
  {
    if n > 0 {
      var q := Pos(p.x + dx, p.y + dy);
      if ok(q) {
        WalkEnd(ok, q, dx, dy, n - 1);
        var rest := Walk(ok, q, dx, dy, n - 1);
        var r := Walk(ok, p, dx, dy, n);
        assert r == [q] + rest;
        assert LegEnd(p, r) == LegEnd(q, rest);
        assert |r| == |rest| + 1;
        assert (|rest| + 1) * dx == |rest| * dx + dx;
        assert (|rest| + 1) * dy == |rest| * dy + dy;
      }
    }
  }

  /** Every routed cell is one orthogonal step from the one before; the first from the start. */
  lemma RouteAdjacent(ok: Pos -> bool, start: Pos, target: Pos)
    ensures var path := Route(ok, start, target);
      forall i :: 0 <= i < |path| ==> Adjacent(Before(start, path, i), path[i])
  {
    var h := HorizontalLeg(ok, start, target);
    var last := LegEnd(start, h);
    var v := VerticalLeg(ok, last, target);
    var path := h + v;
    if start.x != target.x { WalkSteps(ok, start, Sign(target.x - start.x), 0, Abs(target.x - start.x)); }
    if last.y != target.y { WalkSteps(ok, last, 0, Sign(target.y - last.y), Abs(target.y - last.y)); }
    forall i | 0 <= i < |path| ensures Adjacent(Before(start, path, i), path[i]) {
      if i < |h| {
        assert path[i] == h[i] && Before(start, path, i) == Before(start, h, i);
      } else if i == |h| {
        assert path[i] == v[0] && Before(start, path, i) == last;
      } else {
        assert path[i] == v[i - |h|] && Before(start, path, i) == Before(last, v, i - |h|);
      }
    }
  }

  /**
   * The route is a horizontal leg on the start row followed by a vertical leg
   * on the column the horizontal leg reached; every cell passed `ok`.
   */
  lemma RouteShape(ok: Pos -> bool, start: Pos, target: Pos)
    ensures var h := HorizontalLeg(ok, start, target);
      var path := Route(ok, start, target);
      |h| <= |path| && path[..|h|] == h &&
      (forall i :: 0 <= i < |h| ==> path[i].y == start.y) &&
      (forall i :: |h| <= i < |path| ==> path[i].x == LegEnd(start, h).x) &&
      (forall i :: 0 <= i < |path| ==> ok(path[i]))
  {
    var h := HorizontalLeg(ok, start, target);
    var last := LegEnd(start, h);
    var v := VerticalLeg(ok, last, target);
    var path := h + v;
    if start.x != target.x { WalkSteps(ok, start, Sign(target.x - start.x), 0, Abs(target.x - start.x)); }
    if last.y != target.y { WalkSteps(ok, last, 0, Sign(target.y - last.y), Abs(target.y - last.y)); }
    RowKept(h, start);
    RowKeptX(v, last);
    forall i | 0 <= i < |path| ensures ok(path[i]) {
      if i < |h| { assert path[i] == h[i]; } else { assert path[i] == v[i - |h|]; }
    }
  }

  /** The plan built from the pusher's `canMove` has the route's shape and only enterable cells. */
  lemma PlanShape(c: PlanContext, target: Pos)
    ensures var h := HorizontalLeg(Passable(c), c.from, target);
      var path := PlanPath(c, target);
      |h| <= |path| && path[..|h|] == h &&
      (forall i :: 0 <= i < |h| ==> path[i].y == c.from.y) &&
      (forall i :: |h| <= i < |path| ==> path[i].x == LegEnd(c.from, h).x) &&
      (forall i :: 0 <= i < |path| ==> CanStep(c, path[i])) &&
      (forall i :: 0 <= i < |path| ==> Adjacent(Before(c.from, path, i), path[i]))
  {
    RouteShape(Passable(c), c.from, target);
    RouteAdjacent(Passable(c), c.from, target);
  }

  lemma {:induction false} RowKept(h: seq<Pos>, start: Pos)
    requires forall i :: 0 <= i < |h| ==> h[i].y == Before(start, h, i).y
    ensures forall i :: 0 <= i < |h| ==> h[i].y == start.y
    ensures LegEnd(start, h).y == start.y
  {
    if |h| > 0 {
      RowKept(h[..|h| - 1], start);
      forall i | 0 <= i < |h| - 1 ensures h[..|h| - 1][i] == h[i] && Before(start, h[..|h| - 1], i) == Before(start, h, i) {}
    }
  }

  lemma {:induction false} RowKeptX(v: seq<Pos>, last: Pos)
    requires forall i :: 0 <= i < |v| ==> v[i].x == Before(last, v, i).x
    ensures forall i :: 0 <= i < |v| ==> v[i].x == last.x
  {
    if |v| > 0 {
      RowKeptX(v[..|v| - 1], last);
      forall i | 0 <= i < |v| - 1 ensures v[..|v| - 1][i] == v[i] && Before(last, v[..|v| - 1], i) == Before(last, v, i) {}
    }
  }

  /** The route is never longer than the Manhattan distance to the target. */
  lemma RouteLength(ok: Pos -> bool, start: Pos, target: Pos)
    ensures |Route(ok, start, target)| <= Abs(target.x - start.x) + Abs(target.y - start.y)
  {
    var h := HorizontalLeg(ok, start, target);
    if start.x != target.x { WalkEnd(ok, start, Sign(target.x - start.x), 0, Abs(target.x - start.x)); }
    assert LegEnd(start, h).y == start.y;
  }

  /**
   * Each leg stops early only at a refused cell; a route with neither leg cut
   * short ends on the target.
   */
  lemma RouteStopsOnlyWhenBlocked(ok: Pos -> bool, start: Pos, target: Pos)
    ensures var h := HorizontalLeg(ok, start, target);
      var last := LegEnd(start, h);
      var v := VerticalLeg(ok, last, target);
      (|h| < Abs(target.x - start.x) ==> !ok(Pos(last.x + Sign(target.x - start.x), start.y))) &&
      (|h| == Abs(target.x - start.x) ==> last.x == target.x) &&
      (|v| < Abs(target.y - start.y) ==> !ok(Pos(last.x, LegEnd(last, v).y + Sign(target.y - start.y)))) &&
      (|h| == Abs(target.x - start.x) && |v| == Abs(target.y - start.y) ==> LegEnd(start, Route(ok, start, target)) == target)
  {
    var h := HorizontalLeg(ok, start, target);
    var last := LegEnd(start, h);
    var v := VerticalLeg(ok, last, target);
    HorizontalLegStops(ok, start, target);
    VerticalLegStops(ok, last, target);
    var path := h + v;
    if v == [] {
      assert path == h;
    } else {
      assert LegEnd(start, path) == LegEnd(last, v);
    }
  }

  lemma HorizontalLegStops(ok: Pos -> bool, start: Pos, target: Pos)
    ensures var h := HorizontalLeg(ok, start, target);
      var last := LegEnd(start, h);
      last.y == start.y &&
      (|h| < Abs(target.x - start.x) ==> !ok(Pos(last.x + Sign(target.x - start.x), start.y))) &&
      (|h| == Abs(target.x - start.x) ==> last.x == target.x)
  {
    if start.x != target.x {
      WalkStops(ok, start, Sign(target.x - start.x), 0, Abs(target.x - start.x));
      WalkEnd(ok, start, Sign(target.x - start.x), 0, Abs(target.x - start.x));
    }
  }

  lemma VerticalLegStops(ok: Pos -> bool, last: Pos, target: Pos)
    ensures var v := VerticalLeg(ok, last, target);
      LegEnd(last, v).x == last.x &&
      (|v| < Abs(target.y - last.y) ==> !ok(Pos(last.x, LegEnd(last, v).y + Sign(target.y - last.y)))) &&
      (|v| == Abs(target.y - last.y) ==> LegEnd(last, v).y == target.y)
  {
    if last.y != target.y {
      WalkStops(ok, last, 0, Sign(target.y - last.y), Abs(target.y - last.y));
      WalkEnd(ok, last, 0, Sign(target.y - last.y), Abs(target.y - last.y));
    }
  }
}
