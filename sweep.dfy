/**
 * The per-tick bomb sweep of the controller: every active bomb ticks once,
 * in list order, and a bomb that became inactive during its tick leaves the
 * list; inactive bombs stay in it untouched.
 */
module Sweeps {
  import opened Board
  import opened Bombs

  /** The sweep as the iterator runs it: tick, and remove on the spot. */
  function Sweep(bs: seq<BombState>, a: seq<Actor>): (r: (seq<BombState>, seq<Actor>))
    ensures |r.0| <= |bs|
    decreases |bs|
  {
    if bs == [] then ([], a)
    else if !bs[0].active then
      var rest := Sweep(bs[1..], a);
      ([bs[0]] + rest.0, rest.1)
    else
      var t := TickBomb(bs[0], a);
      var rest := Sweep(bs[1..], t.1);
      (if t.0.active then [t.0] + rest.0 else rest.0, rest.1)
  }

  /** Reference, first phase: tick every active bomb in order, removing none. */
  function TickAll(bs: seq<BombState>, a: seq<Actor>): (r: (seq<BombState>, seq<Actor>))
    ensures |r.0| == |bs|
    decreases |bs|
  {
    if bs == [] then ([], a)
    else
      var t := if bs[0].active then TickBomb(bs[0], a) else (bs[0], a);
      var rest := TickAll(bs[1..], t.1);
      ([t.0] + rest.0, rest.1)
  }

  /** Whether bomb `b`, ticked to `t`, became inactive during the sweep. */
  predicate WentOff(b: BombState, t: BombState)
  {
    b.active && !t.active
  }

  /** Reference, second phase: keep the ticked bombs that did not go off. */
  function Drop(bs: seq<BombState>, ts: seq<BombState>): seq<BombState>
    requires |bs| == |ts|
  {
    if bs == [] then []
    else (if WentOff(bs[0], ts[0]) then [] else [ts[0]]) + Drop(bs[1..], ts[1..])
  }

  /** The interleaved sweep is "tick them all, then drop those that went off". */
  lemma {:induction false} SweepIsTickThenDrop(bs: seq<BombState>, a: seq<Actor>)
    ensures Sweep(bs, a) == (Drop(bs, TickAll(bs, a).0), TickAll(bs, a).1)
    decreases |bs|
  {
    if bs != [] {
      var t := if bs[0].active then TickBomb(bs[0], a) else (bs[0], a);
      SweepIsTickThenDrop(bs[1..], t.1);
      var ts := TickAll(bs, a).0;
      assert ts[0] == t.0 && ts[1..] == TickAll(bs[1..], t.1).0;
      var rest := Drop(bs[1..], ts[1..]);
      assert Drop(bs, ts) == (if WentOff(bs[0], t.0) then [] else [t.0]) + rest;
      assert Sweep(bs, a).0 == (if WentOff(bs[0], t.0) then [] else [t.0]) + Sweep(bs[1..], t.1).0;
    }
  }

  /**
   * Each bomb's own tick: an inactive or unarmed bomb is left as it was; an
   * armed active bomb loses one fuse tick; a bomb only goes off when it was
   * armed and its fuse ran out; cell, radius and arming never change.
   */
  lemma {:induction false} TickAllEach(bs: seq<BombState>, a: seq<Actor>)
    ensures var ts := TickAll(bs, a).0;
      forall i :: 0 <= i < |bs| ==>
        ts[i].pos == bs[i].pos && ts[i].radius == bs[i].radius && ts[i].armed == bs[i].armed &&
        (!bs[i].active || !bs[i].armed ==> ts[i] == bs[i]) &&
        (bs[i].active && bs[i].armed ==> ts[i].fuse == bs[i].fuse - 1) &&
        (WentOff(bs[i], ts[i]) <==> bs[i].active && bs[i].armed && bs[i].fuse - 1 <= 0)
    decreases |bs|
  {
    if bs != [] {
      var t := if bs[0].active then TickBomb(bs[0], a) else (bs[0], a);
      TickAllEach(bs[1..], t.1);
      var ts := TickAll(bs, a).0;
      assert ts[1..] == TickAll(bs[1..], t.1).0;
      forall i | 1 <= i < |bs|
        ensures ts[i] == TickAll(bs[1..], t.1).0[i - 1] && bs[i] == bs[1..][i - 1]
      {
      }
    }
  }

  /**
   * `Drop` keeps exactly the bombs that did not go off, in order: its
   * entries are those `ts[i]`, and every such `ts[i]` is among them.
   */
  lemma {:induction false} DropExact(bs: seq<BombState>, ts: seq<BombState>)
    requires |bs| == |ts|
    ensures forall i :: 0 <= i < |bs| && !WentOff(bs[i], ts[i]) ==> ts[i] in Drop(bs, ts)
    ensures forall x :: x in Drop(bs, ts) ==> exists i :: 0 <= i < |bs| && ts[i] == x && !WentOff(bs[i], ts[i])
    ensures |Drop(bs, ts)| == |bs| <==> forall i :: 0 <= i < |bs| ==> !WentOff(bs[i], ts[i])
  {
    if bs != [] {
      DropExact(bs[1..], ts[1..]);
      var rest := Drop(bs[1..], ts[1..]);
      assert |rest| <= |bs| - 1 by { DropShorter(bs[1..], ts[1..]); }
      forall i | 1 <= i < |bs|
        ensures bs[i] == bs[1..][i - 1] && ts[i] == ts[1..][i - 1]
      {
      }
      forall x | x in Drop(bs, ts)
        ensures exists i :: 0 <= i < |bs| && ts[i] == x && !WentOff(bs[i], ts[i])
      {
        if x !in rest {
          assert x == ts[0] && !WentOff(bs[0], ts[0]);
        } else {
          var j :| 0 <= j < |bs| - 1 && ts[1..][j] == x && !WentOff(bs[1..][j], ts[1..][j]);
          assert ts[j + 1] == x && !WentOff(bs[j + 1], ts[j + 1]);
        }
      }
      if WentOff(bs[0], ts[0]) {
        assert |Drop(bs, ts)| < |bs|;
      }
    }
  }

  lemma {:induction false} DropShorter(bs: seq<BombState>, ts: seq<BombState>)
    requires |bs| == |ts|
    ensures |Drop(bs, ts)| <= |bs|
  {
    if bs != [] {
      DropShorter(bs[1..], ts[1..]);
    }
  }

  /** A tick never adds, removes, moves or re-kinds an actor beyond what an explosion does. */
  lemma TickEvolves(b: BombState, a: seq<Actor>)
    ensures Evolves(a, TickBomb(b, a).1)
  {
    if b.active && b.armed && b.fuse - 1 <= 0 {
      BlastEffect(a, Cross(b.pos, b.radius));
    }
  }

  /** Nor does a whole sweep: the pusher and the bomber stay on the grid. */
  lemma {:induction false} SweepEvolves(bs: seq<BombState>, a: seq<Actor>)
    ensures Evolves(a, Sweep(bs, a).1)
    decreases |bs|
  {
    if bs != [] {
      if bs[0].active {
        var t := TickBomb(bs[0], a);
        TickEvolves(bs[0], a);
        SweepEvolves(bs[1..], t.1);
        EvolvesTrans(a, t.1, Sweep(bs[1..], t.1).1);
      } else {
        SweepEvolves(bs[1..], a);
      }
    }
  }

  /** When no bomb is both active and armed, a sweep changes nothing. */
  lemma {:induction false} SweepQuiet(bs: seq<BombState>, a: seq<Actor>)
    requires forall i :: 0 <= i < |bs| ==> !bs[i].active || !bs[i].armed
    ensures Sweep(bs, a) == (bs, a)
    decreases |bs|
  {
    if bs != [] {
      assert forall i :: 0 <= i < |bs[1..]| ==> bs[1..][i] == bs[i + 1];
      SweepQuiet(bs[1..], a);
      assert [bs[0]] + bs[1..] == bs;
    }
  }

  /** A bomb's own state after its tick; it never depends on the board. */
  function Ticked(b: BombState): (t: BombState)
    ensures forall a :: TickBomb(b, a).0 == t
  {
    if !b.active || !b.armed then b
    else if b.fuse - 1 <= 0 then b.(fuse := b.fuse - 1, active := false)
    else b.(fuse := b.fuse - 1)
  }

  /** Which bombs a sweep keeps, and in what state, computed without the board. */
  function SweptBombs(bs: seq<BombState>): seq<BombState>
    decreases |bs|
  {
    if bs == [] then []
    else (if bs[0].active && !Ticked(bs[0]).active then [] else [Ticked(bs[0])]) + SweptBombs(bs[1..])
  }

  /** The bombs left by a sweep do not depend on the board it blasts. */
  lemma {:induction false} SweepBombsIgnoreBoard(bs: seq<BombState>, a: seq<Actor>)
    ensures Sweep(bs, a).0 == SweptBombs(bs)
    decreases |bs|
  {
    if bs != [] {
      if bs[0].active {
        SweepBombsIgnoreBoard(bs[1..], TickBomb(bs[0], a).1);
      } else {
        SweepBombsIgnoreBoard(bs[1..], a);
      }
    }
  }

  /** `updateBombs` on the bomber's list: the iterator loop, ticking and removing in place. */
  method UpdateBombs(bs: seq<BombState>, a: seq<Actor>) returns (bs': seq<BombState>, a': seq<Actor>)
    ensures (bs', a') == Sweep(bs, a)
  {
    bs', a' := [], a;
    var i := 0;
    assert bs[0..] == bs;
    assert [] + Sweep(bs, a).0 == Sweep(bs, a).0;
    while i < |bs|
      invariant 0 <= i <= |bs|
      invariant (bs' + Sweep(bs[i..], a').0, Sweep(bs[i..], a').1) == Sweep(bs, a)
      decreases |bs| - i
    {
      ghost var kept, cur := bs', a';
      assert bs[i..][1..] == bs[i + 1..];
      var b := bs[i];
      if b.active {
        var t := TickBomb(b, a');
        a' := t.1;
        if t.0.active {
          bs' := bs' + [t.0];
        }
      } else {
        bs' := bs' + [b];
      }
      KeptAssoc(kept, bs', bs[i..], cur, a');
      i := i + 1;
    }
    assert bs[|bs|..] == [];
    assert bs' + Sweep([], a').0 == bs';
  }

  lemma KeptAssoc(kept: seq<BombState>, kept': seq<BombState>, rest: seq<BombState>, cur: seq<Actor>, cur': seq<Actor>)
    requires rest != []
    requires !rest[0].active ==> kept' == kept + [rest[0]] && cur' == cur
    requires rest[0].active ==>
      cur' == TickBomb(rest[0], cur).1 &&
      kept' == kept + (if TickBomb(rest[0], cur).0.active then [TickBomb(rest[0], cur).0] else [])
    ensures (kept' + Sweep(rest[1..], cur').0, Sweep(rest[1..], cur').1) == (kept + Sweep(rest, cur).0, Sweep(rest, cur).1)
  {
    var r := Sweep(rest[1..], cur').0;
    if !rest[0].active {
      assert kept + [rest[0]] + r == kept + ([rest[0]] + r);
    } else if TickBomb(rest[0], cur).0.active {
      assert kept + [TickBomb(rest[0], cur).0] + r == kept + ([TickBomb(rest[0], cur).0] + r);
    } else {
      assert kept + [] == kept;
    }
  }
}
