/**
 * The path cursor shared by moving machines: a planned path, the index of
 * the next step, and whether the machine is still on its way.
 */
module Machines {
  import opened Board
  import opened Rules

  /** The fields `stepMove` reads and writes, with the machine's own cell. */
  datatype Mover = Mover(location: Pos, path: seq<Pos>, index: nat, moving: bool)

  /** The cursor is never past the end of the path. */
  predicate CursorValid(m: Mover)
  {
    m.index <= |m.path|
  }

  /** `stepMove`: the new state and whether the machine is done. */
  function MoverStep(m: Mover): (Mover, bool)
  {
    if !m.moving || m.index >= |m.path| then (m.(moving := false), true)
    else
      var n := m.(location := m.path[m.index], index := m.index + 1);
      if n.index >= |n.path| then (n.(moving := false), true) else (n, false)
  }

  /** `k` calls of `stepMove` in a row. */
  function Steps(m: Mover, k: nat): Mover
  {
    if k == 0 then m else MoverStep(Steps(m, k - 1)).0
  }

  /**
   * One step: the result says "done" exactly when the machine stopped moving;
   * a machine that was idle or at the end stays where it is; otherwise it
   * moves to the cell under the cursor and the cursor advances by one; the
   * path never changes and the cursor never passes its end.
   */
  lemma StepMoveEffect(m: Mover)
    requires CursorValid(m)
    ensures var (n, done) := MoverStep(m);
      n.path == m.path && CursorValid(n) && (done <==> !n.moving) &&
      (!m.moving || m.index >= |m.path| ==> done && n.location == m.location && n.index == m.index) &&
      (m.moving && m.index < |m.path| ==>
        n.location == m.path[m.index] && n.index == m.index + 1 && (done <==> n.index == |m.path|))
  {
  }

  /**
   * A moving machine visits the path cells in order: after `k` steps from
   * cursor `i` it stands on cell `i + k - 1`, and it is still moving exactly
   * while cells remain.
   */
  lemma {:induction false} StepsFollowPath(m: Mover, k: nat)
    requires m.moving && CursorValid(m) && 0 < k <= |m.path| - m.index
    ensures Steps(m, k).location == m.path[m.index + k - 1]
    ensures Steps(m, k).index == m.index + k && Steps(m, k).path == m.path
    ensures Steps(m, k).moving <==> m.index + k < |m.path|
  {
    if k > 1 {
      StepsFollowPath(m, k - 1);
    }
  }

  /** Once the path is used up, further steps change nothing but report done. */
  lemma StepsArrive(m: Mover)
    requires m.moving && m.index < |m.path|
    ensures var end := Steps(m, |m.path| - m.index);
      end.location == m.path[|m.path| - 1] && !end.moving && MoverStep(end) == (end, true)
  {
    StepsFollowPath(m, |m.path| - m.index);
  }

  class Machine {
    var location: Pos
    var movePath: seq<Pos>
    var movePathIndex: nat
    var isMoving: bool
    /** Whether a border colour has been set (`borderColor != null`). */
    var borderSet: bool

    function State(): Mover
      reads this
    {
      Mover(location, movePath, movePathIndex, isMoving)
    }

    predicate Valid()
      reads this
    {
      CursorValid(State())
    }

    /** A machine starts with an empty path, not moving and without a border colour. */
    constructor (location: Pos)
      ensures State() == Mover(location, [], 0, false) && !borderSet && Valid()
    {
      this.location := location;
      movePath := [];
      movePathIndex := 0;
      isMoving := false;
      borderSet := false;
    }

    method SetBorderColor()
      modifies this`borderSet
      ensures borderSet
    {
      borderSet := true;
    }

    method StepMove() returns (done: bool)
      requires Valid()
      modifies this`location, this`movePathIndex, this`isMoving
      ensures (State(), done) == MoverStep(old(State())) && Valid()
    {
      if !isMoving || movePathIndex >= |movePath| {
        isMoving := false;
        return true;
      }
      location := movePath[movePathIndex];
      movePathIndex := movePathIndex + 1;
      if movePathIndex >= |movePath| {
        isMoving := false;
        return true;
      }
      return false;
    }

    /** `canMove`: the border colour only when set, then walls, rocks and hard rocks. */
    function CanMove(g: Grid, actors: seq<Actor>, loc: Pos): bool
      reads this
    {
      MachineCanMove(g, actors, borderSet, loc)
    }

    function IsBusy(): bool
      reads this
    {
      isMoving
    }
  }
}
