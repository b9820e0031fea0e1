/**
 * The per-tick log line: for each kind of actor, the cells of its visible
 * actors written as `":x-y,x-y"`, plus the move index and the fuel.
 */
module Log {
  import opened Wrappers
  import opened Text
  import opened Board
  import opened Script

  /** `getActors(kind)`: the actors of kind `k` still on the grid, in registry order. */
  function OfKind(actors: seq<Actor>, k: Kind): (r: seq<Actor>)
    ensures forall i :: 0 <= i < |r| ==> r[i].kind == k && r[i].onGrid
  {
    if actors == [] then []
    else
      var init := OfKind(actors[..|actors| - 1], k);
      var last := actors[|actors| - 1];
      if last.kind == k && last.onGrid then init + [last] else init
  }

  /** The cells of the visible actors among `actors`, in order. */
  function VisiblePositions(actors: seq<Actor>): seq<Pos>
  {
    if actors == [] then []
    else
      var init := VisiblePositions(actors[..|actors| - 1]);
      var last := actors[|actors| - 1];
      if last.visible then init + [last.pos] else init
  }

  /** What `actorLocations` promises: nothing for no cell, else `:` and the cells joined by `,`. */
  function Fragment(ps: seq<Pos>): string
  {
    if ps == [] then "" else ":" + Join(CellStrings(ps), ',')
  }

  /** Each piece followed by the separator, the way the loop writes them before the last one is trimmed. */
  function Terminated(parts: seq<string>, sep: char): (s: string)
    ensures parts != [] ==> |s| >= 1 && s[|s| - 1] == sep
  {
    if parts == [] then "" else Terminated(parts[..|parts| - 1], sep) + parts[|parts| - 1] + [sep]
  }

  lemma {:induction false} JoinSnoc(parts: seq<string>, x: string, sep: char)
    requires parts != []
    ensures Join(parts + [x], sep) == Join(parts, sep) + [sep] + x
  {
    if |parts| == 1 {
      assert (parts + [x])[1..] == [x];
    } else {
      assert (parts + [x])[1..] == parts[1..] + [x];
      JoinSnoc(parts[1..], x, sep);
    }
  }

  /** Writing a separator after every piece is joining them and adding one more separator. */
  lemma {:induction false} TerminatedJoin(parts: seq<string>, sep: char)
    requires parts != []
    ensures Terminated(parts, sep) == Join(parts, sep) + [sep]
  {
    var init := parts[..|parts| - 1];
    var last := parts[|parts| - 1];
    if |parts| > 1 {
      TerminatedJoin(init, sep);
      JoinSnoc(init, last, sep);
      assert init + [last] == parts;
    }
  }

  lemma CellStringsSnoc(ps: seq<Pos>, p: Pos)
    ensures CellStrings(ps + [p]) == CellStrings(ps) + [CellString(p)]
  {
    assert |CellStrings(ps + [p])| == |CellStrings(ps) + [CellString(p)]|;
    forall i | 0 <= i < |ps| + 1
      ensures CellStrings(ps + [p])[i] == (CellStrings(ps) + [CellString(p)])[i]
    {
      if i < |ps| {
        assert (ps + [p])[i] == ps[i];
      }
    }
  }

  /** What the loop appends for actor `a`: `x-y,` when it is visible, preceded by `:` when it is the first. */
  function Piece(first: bool, a: Actor): string
  {
    if !a.visible then "" else (if first then ":" else "") + CellString(a.pos) + ","
  }

  /** The builder's contents after the loop has gone through `actors`, before the trim. */
  function Written(actors: seq<Actor>): string
  {
    if actors == [] then ""
    else
      var init := actors[..|actors| - 1];
      Written(init) + Piece(VisiblePositions(init) == [], actors[|actors| - 1])
  }

  /** Before the trim the builder holds `:` and every visible cell followed by a comma. */
  lemma {:induction false} WrittenTerminated(actors: seq<Actor>)
    ensures Written(actors) ==
      if VisiblePositions(actors) == [] then "" else ":" + Terminated(CellStrings(VisiblePositions(actors)), ',')
  {
    if actors != [] {
      var init := actors[..|actors| - 1];
      var last := actors[|actors| - 1];
      var ps := VisiblePositions(init);
      assert Written(actors) == Written(init) + Piece(ps == [], last);
      WrittenTerminated(init);
      if last.visible {
        var c := CellString(last.pos);
        assert VisiblePositions(actors) == ps + [last.pos];
        CellStringsSnoc(ps, last.pos);
        var strs := CellStrings(ps) + [c];
        assert strs[..|strs| - 1] == CellStrings(ps);
        assert Terminated(strs, ',') == Terminated(CellStrings(ps), ',') + c + [','];
        var lead := if ps == [] then ":" else "";
        assert Piece(ps == [], last) == lead + c + ",";
        Extend(Written(init), Terminated(CellStrings(ps), ','), lead, c);
      } else {
        assert VisiblePositions(actors) == ps;
        assert Written(actors) == Written(init);
      }
    }
  }

  /** One more cell written after a builder holding `w`, which stands for the terminated cells `t`. */
  lemma Extend(w: string, t: string, lead: string, c: string)
    requires (w == "" && t == "" && lead == ":") || (w == ":" + t && lead == "")
    ensures w + (lead + c + ",") == ":" + (t + c + [','])
  {
  }

  lemma ConcatAssoc(a: string, b: string, c: string)
    ensures a + b + c == a + (b + c)
  {
  }

  /**
   * `actorLocations`: write `:` before the first visible actor, then `x-y,`
   * for each visible actor, and finally drop the trailing comma if anything
   * was written. The result is the fragment of the visible cells.
   */
  method ActorLocations(actors: seq<Actor>) returns (s: string)
    ensures s == Fragment(VisiblePositions(actors))
  {
    s := "";
    var any := false;
    for i := 0 to |actors|
      invariant any <==> VisiblePositions(actors[..i]) != []
      invariant s == Written(actors[..i])
    {
      assert actors[..i + 1][..i] == actors[..i];
      s, any := AppendActor(s, any, actors[i]);
    }
    assert actors[..|actors|] == actors;
    TrimmedWritten(actors);
    if any {
      s := s[..|s| - 1];
    }
  }

  /** Dropping the last comma, when anything was written, leaves the fragment. */
  lemma TrimmedWritten(actors: seq<Actor>)
    ensures VisiblePositions(actors) == [] ==> Written(actors) == Fragment(VisiblePositions(actors))
    ensures VisiblePositions(actors) != [] ==>
      |Written(actors)| >= 1 && Written(actors)[..|Written(actors)| - 1] == Fragment(VisiblePositions(actors))
  {
    WrittenTerminated(actors);
    var ps := VisiblePositions(actors);
    var w := Written(actors);
    if ps != [] {
      var strs := CellStrings(ps);
      TerminatedJoin(strs, ',');
      assert w == ":" + Terminated(strs, ',');
      TrimComma(w, Terminated(strs, ','), Join(strs, ','));
      assert Fragment(ps) == ":" + Join(strs, ',');
    }
  }

  lemma TrimComma(w: string, t: string, j: string)
    requires w == ":" + t && t == j + [',']
    ensures |w| >= 1 && w[..|w| - 1] == ":" + j
  {
    assert w == ":" + j + [','];
  }

  /** The loop body of `actorLocations` for one actor `a`. */
  method AppendActor(s: string, any: bool, a: Actor) returns (s': string, any': bool)
    ensures s' == s + Piece(!any, a) && (any' <==> any || a.visible)
  {
    s', any' := s, any;
    if a.visible {
      var lead := if any then "" else ":";
      if !any {
        s' := s' + ":";
        any' := true;
      }
      assert s' == s + lead;
      s' := s' + CellString(a.pos) + ",";
      ConcatAssoc(s + lead, CellString(a.pos), ",");
      ConcatAssoc(s, lead, CellString(a.pos) + ",");
      ConcatAssoc(lead, CellString(a.pos), ",");
    }
  }

  /**
   * Reading a fragment back: empty means no cell, otherwise a `:` and then
   * `,`-separated cells in the placement-entry format.
   */
  function ReadFragment(s: string): Option<seq<Pos>>
  {
    if s == "" then Some([])
    else if s[0] != ':' then None
    else ParsePlacements(Split(s[1..], ','))
  }

  /**
   * The fragment is empty exactly when no actor is visible, otherwise it
   * starts with `:`; its comma-separated entries are the visible cells in
   * order, so a log reader recovers exactly those cells.
   */
  lemma FragmentReadBack(ps: seq<Pos>)
    requires forall i :: 0 <= i < |ps| ==> Writable(ps[i])
    ensures Fragment(ps) == "" <==> ps == []
    ensures ps != [] ==> Fragment(ps)[0] == ':' && Split(Fragment(ps)[1..], ',') == CellStrings(ps)
    ensures ReadFragment(Fragment(ps)) == Some(ps)
  {
    if ps != [] {
      var strs := CellStrings(ps);
      forall i | 0 <= i < |ps|
        ensures ',' !in strs[i] && strs[i] != ""
        ensures ParsePlacement(strs[i]) == Some(ps[i])
      {
        CellStringSplits(ps[i]);
        ParseIntToString(ps[i].x);
        ParseIntToString(ps[i].y);
      }
      SplitJoin(strs, ',');
      assert Fragment(ps)[1..] == Join(strs, ',');
      PlacementsFromParts(strs, ps);
    }
  }

  /** The short names `ElementType.getShortType` gives the logged kinds. */
  function ShortType(k: Kind): string
  {
    match k
    case Pusher => "Pusher"
    case Ore => "Ore"
    case Target => "Target"
    case Rock => "Boulder"
    case Bomber => "Bomber"
    case BombMarker => "BombMarker"
    case Booster => "Booster"
    case HardRock => "HardRock"
    case Wall => "Wall"
    case Fuel => "Fuel"
  }

  /** `actorLocations(getActors(k))`. */
  function KindFragment(actors: seq<Actor>, k: Kind): string
  {
    Fragment(VisiblePositions(OfKind(actors, k)))
  }

  /** One `#`-separated section: the kind's short name and its fragment. */
  function Section(actors: seq<Actor>, k: Kind): string
  {
    ShortType(k) + KindFragment(actors, k)
  }

  /**
   * The line `updateLogResult` appends: its nine fields (see `Fields`) with
   * `#` between them, then a newline.
   */
  function Snapshot(index: int, actors: seq<Actor>, fuel: int): string
  {
    Join(Fields(index, actors, fuel), '#') + "\n"
  }

  lemma {:induction false} JoinAvoids(parts: seq<string>, sep: char, c: char)
    requires c != sep && forall i :: 0 <= i < |parts| ==> c !in parts[i]
    ensures c !in Join(parts, sep)
  {
    if |parts| > 1 {
      JoinAvoids(parts[1..], sep, c);
    }
  }

  lemma IntToStringAvoids(i: int, c: char)
    requires !IsDigit(c) && c != '-'
    ensures c !in IntToString(i)
  {
    NatToStringHasNoSeparator(if i < 0 then -i else i, c);
  }

  /** A fragment holds only digits, `-`, `:` and `,`. */
  lemma FragmentAvoids(ps: seq<Pos>, c: char)
    requires !IsDigit(c) && c !in "-:,"
    ensures c !in Fragment(ps)
  {
    if ps != [] {
      var strs := CellStrings(ps);
      forall i | 0 <= i < |ps|
        ensures c !in strs[i]
      {
        IntToStringAvoids(ps[i].x, c);
        IntToStringAvoids(ps[i].y, c);
      }
      JoinAvoids(strs, ',', c);
    }
  }

  /**
   * The nine fields of a log line: the move index, the pusher's section
   * followed by `-Fuel:` and the fuel, then the sections of ores, targets,
   * boulders, bombers, bomb markers, boosters and hard rocks.
   */
  function Fields(index: int, actors: seq<Actor>, fuel: int): seq<string>
  {
    [IntToString(index), Section(actors, Pusher) + "-Fuel:" + IntToString(fuel),
     Section(actors, Ore), Section(actors, Target), Section(actors, Rock),
     Section(actors, Bomber), Section(actors, BombMarker), Section(actors, Booster),
     Section(actors, HardRock)]
  }

  /** Only the short names use letters; no field holds `#`. */
  lemma SectionAvoids(actors: seq<Actor>, k: Kind)
    ensures '#' !in Section(actors, k)
  {
    FragmentAvoids(VisiblePositions(OfKind(actors, k)), '#');
  }

  lemma FieldsAvoid(index: int, actors: seq<Actor>, fuel: int)
    ensures forall i :: 0 <= i < |Fields(index, actors, fuel)| ==> '#' !in Fields(index, actors, fuel)[i]
  {
    SectionAvoids(actors, Pusher);
    SectionAvoids(actors, Ore);
    SectionAvoids(actors, Target);
    SectionAvoids(actors, Rock);
    SectionAvoids(actors, Bomber);
    SectionAvoids(actors, BombMarker);
    SectionAvoids(actors, Booster);
    SectionAvoids(actors, HardRock);
    IntToStringAvoids(index, '#');
    IntToStringAvoids(fuel, '#');
  }

  /**
   * A line ends in a newline, and splitting the rest on `#` gives back the
   * nine fields: no field holds `#`, so a reader recovers every section.
   */
  lemma SnapshotFields(index: int, actors: seq<Actor>, fuel: int)
    ensures var line := Snapshot(index, actors, fuel);
      |line| >= 1 && line[|line| - 1] == '\n' &&
      Split(line[..|line| - 1], '#') == Fields(index, actors, fuel)
  {
    var line := Snapshot(index, actors, fuel);
    var f := Fields(index, actors, fuel);
    FieldsAvoid(index, actors, fuel);
    assert f[8] == ShortType(HardRock) + KindFragment(actors, HardRock);
    assert f[8][0] == 'H';
    assert line[..|line| - 1] == Join(f, '#');
    SplitJoin(f, '#');
  }

  /**
   * `updateLogResult`'s line, built as the source builds it: one
   * `actorLocations` call per logged kind.
   */
  method LogLine(index: int, actors: seq<Actor>, fuel: int) returns (line: string)
    ensures line == Snapshot(index, actors, fuel)
  {
    var pushers := ActorLocations(OfKind(actors, Pusher));
    var ores := ActorLocations(OfKind(actors, Ore));
    var targets := ActorLocations(OfKind(actors, Target));
    var rocks := ActorLocations(OfKind(actors, Rock));
    var bombers := ActorLocations(OfKind(actors, Bomber));
    var markers := ActorLocations(OfKind(actors, BombMarker));
    var boosters := ActorLocations(OfKind(actors, Booster));
    var heavyRocks := ActorLocations(OfKind(actors, HardRock));
    line := Join([IntToString(index), ShortType(Pusher) + pushers + "-Fuel:" + IntToString(fuel),
                  ShortType(Ore) + ores, ShortType(Target) + targets, ShortType(Rock) + rocks,
                  ShortType(Bomber) + bombers, ShortType(BombMarker) + markers,
                  ShortType(Booster) + boosters, ShortType(HardRock) + heavyRocks], '#') + "\n";
  }
}
