/**
 * The textual formats of the game's configuration: `"x-y"` cell tokens,
 * `";"`-separated placement and command lists, and the literal bomb command.
 */
module Script {
  import opened Wrappers
  import opened Text
  import opened Board

  /** `MineMaze.BOMB_COMMAND`. */
  const BombCommand: string := "Bomb"

  /** What a scripted move token asks for. `Malformed` is where `Integer.parseInt` throws. */
  datatype Token = NoMove | MoveTo(target: Pos) | Malformed

  /** A token that splits on `-` into exactly two parts is a move to `(x, y)`; other tokens are no move. */
  function ParseMoveToken(s: string): (t: Token)
    ensures |Split(s, '-')| != 2 <==> t == NoMove
    ensures t.MoveTo? ==> Some(t.target.x) == ParseInt(Split(s, '-')[0]) && Some(t.target.y) == ParseInt(Split(s, '-')[1])
  {
    var parts := Split(s, '-');
    if |parts| != 2 then NoMove
    else match (ParseInt(parts[0]), ParseInt(parts[1]))
      case (Some(x), Some(y)) => MoveTo(Pos(x, y))
      case _ => Malformed
  }

  /** `x + "-" + y`, the way a cell is written in scripts, placement lists and the log. */
  function CellString(p: Pos): string
  {
    IntToString(p.x) + "-" + IntToString(p.y)
  }

  /** A cell whose coordinates are non-negative 32-bit ints: the ones the formats can carry. */
  predicate Writable(p: Pos)
  {
    0 <= p.x <= IntMax && 0 <= p.y <= IntMax
  }

  lemma CellStringSplits(p: Pos)
    requires Writable(p)
    ensures Split(CellString(p), '-') == [NatToString(p.x), NatToString(p.y)]
    ensures ',' !in CellString(p) && ';' !in CellString(p) && CellString(p) != ""
  {
    var parts := [NatToString(p.x), NatToString(p.y)];
    NatToStringHasNoSeparator(p.x, '-');
    NatToStringHasNoSeparator(p.y, '-');
    NatToStringHasNoSeparator(p.x, ',');
    NatToStringHasNoSeparator(p.y, ',');
    NatToStringHasNoSeparator(p.x, ';');
    NatToStringHasNoSeparator(p.y, ';');
    assert Join(parts, '-') == CellString(p);
    SplitJoin(parts, '-');
  }

  /** A written cell reads back as a move to that cell. */
  lemma MoveTokenRoundTrip(p: Pos)
    requires Writable(p)
    ensures ParseMoveToken(CellString(p)) == MoveTo(p)
  {
    CellStringSplits(p);
    ParseIntToString(p.x);
    ParseIntToString(p.y);
  }

  /**
   * One entry of a placement list, read as `ActorFactory.spawnExtra` reads it:
   * the first two `-`-separated parts are the coordinates and any further part
   * is ignored. `None` where Java throws (too few parts, or not a number).
   */
  function ParsePlacement(s: string): (r: Option<Pos>)
    ensures r.Some? ==> |Split(s, '-')| >= 2
    ensures |Split(s, '-')| < 2 ==> r.None?
  {
    var xy := Split(s, '-');
    if |xy| < 2 then None
    else match (ParseInt(xy[0]), ParseInt(xy[1]))
      case (Some(x), Some(y)) => Some(Pos(x, y))
      case _ => None
  }

  /** All entries of a list, or `None` when any entry throws. */
  function ParsePlacements(entries: seq<string>): (r: Option<seq<Pos>>)
    ensures r.Some? ==> |r.value| == |entries|
    ensures r.Some? ==> forall i :: 0 <= i < |entries| ==> ParsePlacement(entries[i]) == Some(r.value[i])
    ensures r.None? ==> exists i :: 0 <= i < |entries| && ParsePlacement(entries[i]).None?
  {
    if entries == [] then Some([])
    else
      var head := ParsePlacement(entries[0]);
      if head.None? then None
      else
        var tail := ParsePlacements(entries[1..]);
        if tail.None? then
          var i :| 0 <= i < |entries[1..]| && ParsePlacement(entries[1..][i]).None?;
          assert entries[1..][i] == entries[i + 1];
          None
        else
          ConsParsed(ParsePlacement, entries, head.value, tail.value);
          Some([head.value] + tail.value)
  }

  /** A pointwise reading of a non-empty list, from its head and its tail. */
  lemma ConsParsed<A, B>(f: A -> Option<B>, entries: seq<A>, h: B, t: seq<B>)
    requires |entries| >= 1 && f(entries[0]) == Some(h) && |t| == |entries| - 1
    requires forall i :: 0 <= i < |t| ==> f(entries[1..][i]) == Some(t[i])
    ensures forall i :: 0 <= i < |entries| ==> f(entries[i]) == Some(([h] + t)[i])
  {
    var ps := [h] + t;
    forall i | 0 <= i < |entries|
      ensures f(entries[i]) == Some(ps[i])
    {
      if i > 0 {
        assert entries[i] == entries[1..][i - 1] && ps[i] == t[i - 1];
      }
    }
  }

  /** A placement list, the string `ore.locations` and its siblings hold. */
  function PlacementList(s: string): Option<seq<Pos>>
  {
    if s == "" then Some([]) else ParsePlacements(Split(s, ';'))
  }

  function CellStrings(ps: seq<Pos>): (r: seq<string>)
    ensures |r| == |ps| && forall i :: 0 <= i < |ps| ==> r[i] == CellString(ps[i])
  {
    if ps == [] then [] else [CellString(ps[0])] + CellStrings(ps[1..])
  }

  /** Writing cells as a `;`-separated list and reading it back gives the same cells. */
  lemma PlacementRoundTrip(ps: seq<Pos>)
    requires forall i :: 0 <= i < |ps| ==> Writable(ps[i])
    ensures PlacementList(Join(CellStrings(ps), ';')) == Some(ps)
  {
    var strs := CellStrings(ps);
    CellEntriesReadBack(ps);
    if ps != [] {
      SplitJoin(strs, ';');
      JoinNonEmpty(strs, ';');
      PlacementsFromParts(strs, ps);
    }
  }

  lemma CellEntriesReadBack(ps: seq<Pos>)
    requires forall i :: 0 <= i < |ps| ==> Writable(ps[i])
    ensures forall i :: 0 <= i < |ps| ==> ';' !in CellStrings(ps)[i] && CellStrings(ps)[i] != ""
    ensures forall i :: 0 <= i < |ps| ==> ParsePlacement(CellStrings(ps)[i]) == Some(ps[i])
  {
    forall i | 0 <= i < |ps|
      ensures ';' !in CellString(ps[i]) && CellString(ps[i]) != ""
      ensures ParsePlacement(CellString(ps[i])) == Some(ps[i])
    {
      CellStringSplits(ps[i]);
      ParseIntToString(ps[i].x);
      ParseIntToString(ps[i].y);
    }
  }

  lemma JoinNonEmpty(parts: seq<string>, sep: char)
    requires |parts| >= 1 && parts[0] != ""
    ensures Join(parts, sep) != ""
  {
    if |parts| > 1 {
      assert |Join(parts, sep)| >= |parts[0]|;
    }
  }

  lemma PlacementsFromParts(strs: seq<string>, ps: seq<Pos>)
    requires |strs| == |ps|
    requires forall i :: 0 <= i < |ps| ==> ParsePlacement(strs[i]) == Some(ps[i])
    ensures ParsePlacements(strs) == Some(ps)
  {
    var r := ParsePlacements(strs);
    assert r.Some?;
    assert forall i :: 0 <= i < |ps| ==> Some(r.value[i]) == Some(ps[i]);
    assert r.value == ps;
  }
}
