/** Cliffs, cut after the water stage, with a ramp on some of them.

    `rand` is the stream of random numbers; each cliff found draws two of them.  */
module CliffGenerator {
  import opened Grid
  import opened Tiles
  import opened ElevationGenerator
  import opened RampGenerator

  /** The map so far, and how many random numbers were drawn. */
  datatype Carving = Carving(tiles: seq<Tile>, drawn: nat)

  ghost function TurnBoth(tiles: seq<Tile>, i: int, j: int, terrType: TerrType): (r: seq<Tile>)
    requires 0 <= i < |tiles| && 0 <= j < |tiles|
    ensures |r| == |tiles|
  {
    var one := tiles[i := tiles[i].(terrType := terrType)];
    one[j := one[j].(terrType := terrType)]
  }

  /** Tile `j`, if there is one, is a cliff above height `e`. */
  predicate IsCliff(tiles: seq<Tile>, e: int, j: int, cliffThreshold: int) {
    0 <= j < |tiles| && tiles[j].elevation - e >= cliffThreshold
  }

  /** A cliff turns both tiles to rock; one in twenty gets a ramp, and both turn to dirt. */
  ghost function Visited(c: Carving, w: nat, i: nat, e: int, p: Node, cliffThreshold: int, rand: nat -> nat): (r: Carving)
    requires IsMap(c.tiles, w) && i < |c.tiles|
    ensures IsMap(r.tiles, w)
  {
    var j := Index(w, p);
    if !IsCliff(c.tiles, e, j, cliffThreshold) then c
    else
      var rocky := TurnBoth(c.tiles, i, j, Rock);
      Carving(if rand(c.drawn) % 20 == 1
              then TurnBoth(Ramped(rocky, w, p.x, p.y, rand(c.drawn + 1) % 5 + 1), i, j, Dirt)
              else rocky,
              c.drawn + 2)
  }

  /** The first `k` cells around (x, y), seen from its height before them. */
  ghost function VisitedFirst(c: Carving, w: nat, i: nat, e: int, x: int, y: int, k: nat, cliffThreshold: int, rand: nat -> nat): (r: Carving)
    requires IsMap(c.tiles, w) && i < |c.tiles|
    ensures IsMap(r.tiles, w)
  {
    if k == 0 then c
    else
      var before := VisitedFirst(c, w, i, e, x, y, k - 1, cliffThreshold, rand);
      Visited(before, w, i, e, Around(x, y, k - 1), cliffThreshold, rand)
  }

  ghost function CarvedTile(c: Carving, w: nat, i: nat, cliffThreshold: int, rand: nat -> nat): (r: Carving)
    requires IsMap(c.tiles, w) && w > 0 && i < |c.tiles|
    ensures IsMap(r.tiles, w)
  {
    VisitedFirst(c, w, i, c.tiles[i].elevation, At(w, i).x, At(w, i).y, 9, cliffThreshold, rand)
  }

  /** The first `n` tiles of the map. */
  ghost function CarvedFirst(tiles: seq<Tile>, w: nat, n: nat, cliffThreshold: int, rand: nat -> nat): (r: Carving)
    requires IsMap(tiles, w) && n <= |tiles| && (n > 0 ==> w > 0)
    ensures IsMap(r.tiles, w)
  {
    if n == 0 then Carving(tiles, 0) else CarvedTile(CarvedFirst(tiles, w, n - 1, cliffThreshold, rand), w, n - 1, cliffThreshold, rand)
  }

  // ---- The stage -----------------------------------------------------------------------

  method VisitPair(world: array<Tile>, w: nat, currentIndex: nat, currentElevation: int, x2: int, y2: int, cliffThreshold: int,
                   rand: nat -> nat, drawn: nat)
    returns (drawn': nat)
    requires IsMap(world[..], w) && currentIndex < world.Length
    modifies world
    ensures IsMap(old(world[..]), w)
    ensures Carving(world[..], drawn') ==
            Visited(Carving(old(world[..]), drawn), w, currentIndex, currentElevation, Node(x2, y2), cliffThreshold, rand)
  {
    hide IsMap, Ramped;
    drawn' := drawn;
    ghost var before := world[..];
    var adjIndex := x2 + y2 * w;
    if 0 <= adjIndex < world.Length {
      var adjElevation: int := world[adjIndex].elevation;
      if adjElevation - currentElevation >= cliffThreshold {
        SameSize(before, TurnBoth(before, currentIndex, adjIndex, Rock), w);
        world[currentIndex] := world[currentIndex].(terrType := Rock);
        world[adjIndex] := world[adjIndex].(terrType := Rock);
        assert world[..] == TurnBoth(before, currentIndex, adjIndex, Rock);
        var diceThrow1 := rand(drawn) % 20;
        var diceThrow2 := rand(drawn + 1) % 5;
        drawn' := drawn + 2;
        if diceThrow1 == 1 {
          CreateRamp(world, w, x2, y2, diceThrow2 + 1);
          ghost var ramped := world[..];
          world[currentIndex] := world[currentIndex].(terrType := Dirt);
          world[adjIndex] := world[adjIndex].(terrType := Dirt);
          assert world[..] == TurnBoth(ramped, currentIndex, adjIndex, Dirt);
        }
      }
    }
  }

  lemma SameSize(a: seq<Tile>, b: seq<Tile>, w: nat)
    requires IsMap(a, w) && |b| == |a|
    ensures IsMap(b, w)
  {
  }

  method GenerateWorldCliffs(world: array<Tile>, w: nat, cliffThreshold: int, rand: nat -> nat)
    requires IsMap(world[..], w)
    modifies world
    ensures IsMap(old(world[..]), w) && world[..] == CarvedFirst(old(world[..]), w, world.Length, cliffThreshold, rand).tiles
  {
    RowStarts(w, 0);
    MapSize(world[..], w);
    hide *;
    ghost var before := world[..];
    NothingCarved(before, w, cliffThreshold, rand);
    var drawn := 0;
    for y := 0 to w
      invariant RowStart(w, y) <= |before|
      invariant Carving(world[..], drawn) == CarvedFirst(before, w, RowStart(w, y), cliffThreshold, rand)
    {
      RowStarts(w, y);
      drawn := CarveRow(world, w, y, cliffThreshold, rand, drawn, before);
    }
  }

  lemma MapSize(tiles: seq<Tile>, w: nat)
    requires IsMap(tiles, w)
    ensures RowStart(w, w) == |tiles| && (|tiles| > 0 ==> w > 0)
    ensures forall y: nat :: y < w ==> RowStart(w, y) + w <= |tiles|
  {
    forall y: nat | y < w
      ensures RowStart(w, y) + w <= |tiles|
    {
      RowStarts(w, y);
    }
  }

  method CarveRow(world: array<Tile>, w: nat, y: nat, cliffThreshold: int, rand: nat -> nat, drawn: nat, ghost before: seq<Tile>)
    returns (drawn': nat)
    requires w > 0 && IsMap(before, w) && |before| == world.Length && RowStart(w, y) + w <= |before|
    requires Carving(world[..], drawn) == CarvedFirst(before, w, RowStart(w, y), cliffThreshold, rand)
    modifies world
    ensures Carving(world[..], drawn') == CarvedFirst(before, w, RowStart(w, y) + w, cliffThreshold, rand)
  {
    hide *;
    drawn' := drawn;
    for x := 0 to w
      invariant Carving(world[..], drawn') == CarvedFirst(before, w, RowStart(w, y) + x, cliffThreshold, rand)
    {
      IndexInRow(w, x, y);
      OneMoreCarved(before, w, RowStart(w, y) + x, cliffThreshold, rand);
      drawn' := CarveAround(world, w, x, y, x + y * w, cliffThreshold, rand, drawn');
    }
  }

  /** The two loops around one tile. */
  method CarveAround(world: array<Tile>, w: nat, x: int, y: int, currentIndex: nat, cliffThreshold: int, rand: nat -> nat, drawn: nat)
    returns (drawn': nat)
    requires IsMap(world[..], w) && currentIndex < world.Length
    modifies world
    ensures IsMap(old(world[..]), w)
    ensures Carving(world[..], drawn') ==
            VisitedFirst(Carving(old(world[..]), drawn), w, currentIndex, old(world[currentIndex]).elevation, x, y, 9, cliffThreshold, rand)
  {
    hide *;
    ghost var c := Carving(world[..], drawn);
    var currentElevation: int := world[currentIndex].elevation;
    drawn' := drawn;
    NoneVisited(c, w, currentIndex, currentElevation, x, y, cliffThreshold, rand);
    for y2 := y - 1 to y + 2
      invariant Carving(world[..], drawn') == VisitedFirst(c, w, currentIndex, currentElevation, x, y, 3 * (y2 - y + 1), cliffThreshold, rand)
    {
      ghost var row: nat := y2 - y + 1;
      for x2 := x - 1 to x + 2
        invariant Carving(world[..], drawn') ==
                  VisitedFirst(c, w, currentIndex, currentElevation, x, y, 3 * row + (x2 - x + 1), cliffThreshold, rand)
      {
        CellIs(x, y, row, x2 - x + 1);
        OneMoreVisited(c, w, currentIndex, currentElevation, x, y, 3 * row + (x2 - x + 1), cliffThreshold, rand);
        drawn' := VisitPair(world, w, currentIndex, currentElevation, x2, y2, cliffThreshold, rand, drawn');
      }
    }
  }

  lemma NoneVisited(c: Carving, w: nat, i: nat, e: int, x: int, y: int, cliffThreshold: int, rand: nat -> nat)
    requires IsMap(c.tiles, w) && i < |c.tiles|
    ensures VisitedFirst(c, w, i, e, x, y, 0, cliffThreshold, rand) == c
  {
  }

  lemma OneMoreVisited(c: Carving, w: nat, i: nat, e: int, x: int, y: int, k: nat, cliffThreshold: int, rand: nat -> nat)
    requires IsMap(c.tiles, w) && i < |c.tiles|
    ensures var before := VisitedFirst(c, w, i, e, x, y, k, cliffThreshold, rand);
            && IsMap(before.tiles, w) && i < |before.tiles|
            && VisitedFirst(c, w, i, e, x, y, k + 1, cliffThreshold, rand) == Visited(before, w, i, e, Around(x, y, k), cliffThreshold, rand)
  {
  }

  lemma NothingCarved(tiles: seq<Tile>, w: nat, cliffThreshold: int, rand: nat -> nat)
    requires IsMap(tiles, w)
    ensures CarvedFirst(tiles, w, 0, cliffThreshold, rand) == Carving(tiles, 0)
  {
  }

  lemma OneMoreCarved(tiles: seq<Tile>, w: nat, n: nat, cliffThreshold: int, rand: nat -> nat)
    requires w > 0 && IsMap(tiles, w) && n < |tiles|
    ensures var c := CarvedFirst(tiles, w, n, cliffThreshold, rand);
            && IsMap(c.tiles, w) && n < |c.tiles|
            && CarvedFirst(tiles, w, n + 1, cliffThreshold, rand) ==
               VisitedFirst(c, w, n, c.tiles[n].elevation, At(w, n).x, At(w, n).y, 9, cliffThreshold, rand)
  {
  }

  // ---- What the stage keeps ------------------------------------------------------------

  /** Elevations stay within `top`, types turn to rock or dirt, and nothing else changes. */
  ghost predicate Carved(before: seq<Tile>, after: seq<Tile>, top: int) {
    && |after| == |before| && ElevationsAtMost(after, top)
    && forall t :: 0 <= t < |before| ==> TileCarved(before[t], after[t])
  }

  ghost predicate TileCarved(before: Tile, after: Tile) {
    && after == before.(elevation := after.elevation, terrType := after.terrType)
    && (after.terrType == before.terrType || after.terrType == Rock || after.terrType == Dirt)
  }

  lemma VisitedKeeps(c: Carving, w: nat, i: nat, e: int, p: Node, cliffThreshold: int, rand: nat -> nat, before: seq<Tile>, top: int)
    requires IsMap(c.tiles, w) && i < |c.tiles| && Carved(before, c.tiles, top)
    ensures Carved(before, Visited(c, w, i, e, p, cliffThreshold, rand).tiles, top)
  {
    hide Ramped;
    var j := Index(w, p);
    if IsCliff(c.tiles, e, j, cliffThreshold) {
      var rocky := TurnBoth(c.tiles, i, j, Rock);
      RampKeeps(rocky, w, p.x, p.y, rand(c.drawn + 1) % 5 + 1, before, top);
    }
  }

  lemma RampKeeps(tiles: seq<Tile>, w: nat, x: int, y: int, rampWidth: nat, before: seq<Tile>, top: int)
    requires IsMap(tiles, w) && OnMap(tiles, w, x, y) && Carved(before, tiles, top)
    ensures Carved(before, Ramped(tiles, w, x, y, rampWidth), top)
  {
    hide IsMap, RampFrom, RampRows;
    var r := RampFrom(tiles, w, x, y, rampWidth);
    SameMapSize(tiles, Ramped(tiles, w, x, y, rampWidth), w);
    forall t: nat | t < |tiles|
      ensures TileCarved(before[t], Ramped(tiles, w, x, y, rampWidth)[t])
      ensures Ramped(tiles, w, x, y, rampWidth)[t].elevation <= top
    {
      RampWithin(tiles, w, r, t);
    }
  }

  lemma {:induction false} VisitedFirstKeeps(c: Carving, w: nat, i: nat, e: int, x: int, y: int, k: nat, cliffThreshold: int, rand: nat -> nat,
                                             before: seq<Tile>, top: int)
    requires IsMap(c.tiles, w) && i < |c.tiles| && Carved(before, c.tiles, top)
    ensures Carved(before, VisitedFirst(c, w, i, e, x, y, k, cliffThreshold, rand).tiles, top)
  {
    hide Visited, Carved, Around;
    if k > 0 {
      VisitedFirstKeeps(c, w, i, e, x, y, k - 1, cliffThreshold, rand, before, top);
      VisitedKeeps(VisitedFirst(c, w, i, e, x, y, k - 1, cliffThreshold, rand), w, i, e, Around(x, y, k - 1), cliffThreshold, rand, before, top);
    }
  }

  /** Whatever is rolled, the stage raises nothing above a bound of the map, turns types to rock
      or dirt only, and changes nothing else.  */
  lemma {:induction false} CarvedKeeps(tiles: seq<Tile>, w: nat, n: nat, cliffThreshold: int, rand: nat -> nat, top: int)
    requires IsMap(tiles, w) && n <= |tiles| && (n > 0 ==> w > 0) && ElevationsAtMost(tiles, top)
    ensures Carved(tiles, CarvedFirst(tiles, w, n, cliffThreshold, rand).tiles, top)
  {
    hide VisitedFirst;
    if n > 0 {
      CarvedKeeps(tiles, w, n - 1, cliffThreshold, rand, top);
      var c := CarvedFirst(tiles, w, n - 1, cliffThreshold, rand);
      VisitedFirstKeeps(c, w, n - 1, c.tiles[n - 1].elevation, At(w, n - 1).x, At(w, n - 1).y, 9, cliffThreshold, rand, tiles, top);
    }
  }

  // ---- Where the cliffs are ------------------------------------------------------------

  /** Cell `k` around tile `i` is a cliff above that tile. */
  ghost predicate CliffBy(tiles: seq<Tile>, w: nat, cliffThreshold: int, i: nat, k: nat)
    requires w > 0
  {
    i < |tiles| && k < 9 && IsCliff(tiles, tiles[i].elevation, CellIndex(w, i, k), cliffThreshold)
  }

  ghost function CellIndex(w: nat, i: nat, k: nat): int
    requires w > 0
  {
    Index(w, Around(At(w, i).x, At(w, i).y, k))
  }

  /** Tile `t` is one of the two tiles of a cliff found at tile `i`, at a cell below `k`. */
  ghost predicate OfCliff(tiles: seq<Tile>, w: nat, cliffThreshold: int, i: nat, k: nat, t: int)
    requires w > 0
  {
    exists c: nat :: c < k && CliffBy(tiles, w, cliffThreshold, i, c) && (t == i || t == CellIndex(w, i, c))
  }

  /** The map with rock on the cliffs found at tiles below `n`, and at the cells of tile `n`
      below `k`.  */
  ghost predicate Rocky(before: seq<Tile>, after: seq<Tile>, w: nat, cliffThreshold: int, n: nat, k: nat)
    requires w > 0
  {
    && |after| == |before|
    && forall t :: 0 <= t < |before| ==>
         after[t] == if OnCliff(before, w, cliffThreshold, n, k, t) then before[t].(terrType := Rock) else before[t]
  }

  ghost predicate OnCliff(tiles: seq<Tile>, w: nat, cliffThreshold: int, n: nat, k: nat, t: int)
    requires w > 0
  {
    OfCliff(tiles, w, cliffThreshold, n, k, t) || exists i: nat :: i < n && OfCliff(tiles, w, cliffThreshold, i, 9, t)
  }

  /** No roll ever asks for a ramp. */
  ghost predicate NeverRamps(rand: nat -> nat) {
    forall k: nat :: rand(2 * k) % 20 != 1
  }

  lemma VisitedRocky(before: seq<Tile>, c: Carving, w: nat, i: nat, k: nat, cliffThreshold: int, rand: nat -> nat)
    requires w > 0 && IsMap(c.tiles, w) && i < |before| && k < 9 && NeverRamps(rand) && c.drawn % 2 == 0
    requires Rocky(before, c.tiles, w, cliffThreshold, i, k)
    ensures var r := Visited(c, w, i, before[i].elevation, Around(At(w, i).x, At(w, i).y, k), cliffThreshold, rand);
            r.drawn % 2 == 0 && Rocky(before, r.tiles, w, cliffThreshold, i, k + 1)
  {
    hide IsMap, Index, Around, At, Ramped;
    var r := Visited(c, w, i, before[i].elevation, Around(At(w, i).x, At(w, i).y, k), cliffThreshold, rand);
    assert rand(2 * (c.drawn / 2)) % 20 != 1;
    assert c.drawn == 2 * (c.drawn / 2);
    assert CliffBy(before, w, cliffThreshold, i, k) <==> IsCliff(c.tiles, before[i].elevation, CellIndex(w, i, k), cliffThreshold);
    forall t | 0 <= t < |before|
      ensures OfCliff(before, w, cliffThreshold, i, k + 1, t) <==>
              OfCliff(before, w, cliffThreshold, i, k, t) ||
              (CliffBy(before, w, cliffThreshold, i, k) && (t == i || t == CellIndex(w, i, k)))
    {
    }
  }

  lemma {:induction false} VisitedFirstRocky(before: seq<Tile>, c: Carving, w: nat, i: nat, k: nat, cliffThreshold: int, rand: nat -> nat)
    requires w > 0 && IsMap(c.tiles, w) && i < |before| && k <= 9 && NeverRamps(rand) && c.drawn % 2 == 0
    requires Rocky(before, c.tiles, w, cliffThreshold, i, 0)
    ensures var r := VisitedFirst(c, w, i, before[i].elevation, At(w, i).x, At(w, i).y, k, cliffThreshold, rand);
            r.drawn % 2 == 0 && Rocky(before, r.tiles, w, cliffThreshold, i, k)
  {
    assert |c.tiles| == |before|;
    hide Visited, Rocky, NeverRamps, Around, At, IsMap;
    if k > 0 {
      VisitedFirstRocky(before, c, w, i, k - 1, cliffThreshold, rand);
      VisitedRocky(before, VisitedFirst(c, w, i, before[i].elevation, At(w, i).x, At(w, i).y, k - 1, cliffThreshold, rand), w, i, k - 1, cliffThreshold, rand);
    }
  }

  lemma NextTile(tiles: seq<Tile>, w: nat, cliffThreshold: int, i: nat, t: int)
    requires w > 0
    ensures OnCliff(tiles, w, cliffThreshold, i, 9, t) <==> OnCliff(tiles, w, cliffThreshold, i + 1, 0, t)
  {
    hide CliffBy, CellIndex;
    assert !OfCliff(tiles, w, cliffThreshold, i + 1, 0, t);
  }

  /** As long as no roll asks for a ramp, the stage makes rock of exactly the tiles of the cliffs
      of the map before it, and does nothing else.  */
  lemma {:induction false} RockOnCliffs(tiles: seq<Tile>, w: nat, n: nat, cliffThreshold: int, rand: nat -> nat)
    requires IsMap(tiles, w) && w > 0 && n <= |tiles| && NeverRamps(rand)
    ensures var r := CarvedFirst(tiles, w, n, cliffThreshold, rand);
            r.drawn % 2 == 0 && Rocky(tiles, r.tiles, w, cliffThreshold, n, 0)
  {
    hide NeverRamps, VisitedFirst, OfCliff, At, IsMap;
    if n > 0 {
      RockOnCliffs(tiles, w, n - 1, cliffThreshold, rand);
      VisitedFirstRocky(tiles, CarvedFirst(tiles, w, n - 1, cliffThreshold, rand), w, n - 1, 9, cliffThreshold, rand);
      forall t
        ensures OnCliff(tiles, w, cliffThreshold, n - 1, 9, t) <==> OnCliff(tiles, w, cliffThreshold, n, 0, t)
      {
        NextTile(tiles, w, cliffThreshold, n - 1, t);
      }
    } else {
      assert forall t :: !OnCliff(tiles, w, cliffThreshold, 0, 0, t) by {
        NoneOfCliff(tiles, w, cliffThreshold);
      }
    }
  }

  lemma NoneOfCliff(tiles: seq<Tile>, w: nat, cliffThreshold: int)
    requires w > 0
    ensures forall t :: !OnCliff(tiles, w, cliffThreshold, 0, 0, t)
  {
  }

  // ---- Which type a tile ends with -----------------------------------------------------

  /** What cell `k` of tile `i` is looked at on: the ramps before it are cut. */
  ghost function Seen(tiles: seq<Tile>, w: nat, i: nat, k: nat, cliffThreshold: int, rand: nat -> nat): (r: Carving)
    requires IsMap(tiles, w) && w > 0 && i < |tiles|
    ensures IsMap(r.tiles, w) && |r.tiles| == |tiles|
  {
    var c := CarvedFirst(tiles, w, i, cliffThreshold, rand);
    SameMapSize(tiles, c.tiles, w);
    var r := VisitedFirst(c, w, i, c.tiles[i].elevation, At(w, i).x, At(w, i).y, k, cliffThreshold, rand);
    SameMapSize(tiles, r.tiles, w);
    r
  }

  /** A cliff is found there, and tile `t` is one of its two tiles. */
  ghost predicate Turns(tiles: seq<Tile>, w: nat, i: nat, k: nat, cliffThreshold: int, rand: nat -> nat, t: int)
    requires IsMap(tiles, w) && w > 0 && i < |tiles|
  {
    && IsCliff(Seen(tiles, w, i, k, cliffThreshold, rand).tiles, Seen(tiles, w, i, 0, cliffThreshold, rand).tiles[i].elevation,
               CellIndex(w, i, k), cliffThreshold)
    && (t == i || t == CellIndex(w, i, k))
  }

  /** Dirt if the cliff found there gets a ramp. */
  ghost function RolledType(tiles: seq<Tile>, w: nat, i: nat, k: nat, cliffThreshold: int, rand: nat -> nat): TerrType
    requires IsMap(tiles, w) && w > 0 && i < |tiles|
  {
    if rand(Seen(tiles, w, i, k, cliffThreshold, rand).drawn) % 20 == 1 then Dirt else Rock
  }

  lemma VisitTurns(c: Carving, w: nat, i: nat, e: int, p: Node, cliffThreshold: int, rand: nat -> nat, t: nat)
    requires IsMap(c.tiles, w) && i < |c.tiles| && t < |c.tiles|
    ensures var r := Visited(c, w, i, e, p, cliffThreshold, rand);
            |r.tiles| == |c.tiles| &&
            r.tiles[t].terrType == if IsCliff(c.tiles, e, Index(w, p), cliffThreshold) && (t == i || t == Index(w, p))
                                   then (if rand(c.drawn) % 20 == 1 then Dirt else Rock) else c.tiles[t].terrType
  {
    hide Ramped;
    var j := Index(w, p);
    SameMapSize(c.tiles, Visited(c, w, i, e, p, cliffThreshold, rand).tiles, w);
    if IsCliff(c.tiles, e, j, cliffThreshold) {
      RampKeepsType(TurnBoth(c.tiles, i, j, Rock), w, p.x, p.y, rand(c.drawn + 1) % 5 + 1, t);
    }
  }

  lemma RampKeepsType(tiles: seq<Tile>, w: nat, x: int, y: int, rampWidth: nat, t: nat)
    requires IsMap(tiles, w) && OnMap(tiles, w, x, y) && t < |tiles|
    ensures |Ramped(tiles, w, x, y, rampWidth)| == |tiles| && Ramped(tiles, w, x, y, rampWidth)[t].terrType == tiles[t].terrType
  {
    hide IsMap, RampFrom, RampRows;
    SameMapSize(tiles, Ramped(tiles, w, x, y, rampWidth), w);
    RampWithin(tiles, w, RampFrom(tiles, w, x, y, rampWidth), t);
  }

  lemma OneMoreSeen(tiles: seq<Tile>, w: nat, i: nat, k: nat, cliffThreshold: int, rand: nat -> nat, t: nat)
    requires IsMap(tiles, w) && w > 0 && i < |tiles| && t < |tiles|
    ensures Seen(tiles, w, i, k + 1, cliffThreshold, rand).tiles[t].terrType ==
            if Turns(tiles, w, i, k, cliffThreshold, rand, t) then RolledType(tiles, w, i, k, cliffThreshold, rand)
            else Seen(tiles, w, i, k, cliffThreshold, rand).tiles[t].terrType
  {
    hide Visited, CarvedFirst, At, Around, Index, IsMap, IsCliff;
    var c := CarvedFirst(tiles, w, i, cliffThreshold, rand);
    var e := Seen(tiles, w, i, 0, cliffThreshold, rand).tiles[i].elevation;
    VisitTurns(Seen(tiles, w, i, k, cliffThreshold, rand), w, i, e, Around(At(w, i).x, At(w, i).y, k), cliffThreshold, rand, t);
  }

  /** The next tile is seen on what the last cell of the one before left. */
  lemma NextSeen(tiles: seq<Tile>, w: nat, i: nat, cliffThreshold: int, rand: nat -> nat)
    requires IsMap(tiles, w) && w > 0 && i < |tiles|
    ensures CarvedFirst(tiles, w, i + 1, cliffThreshold, rand) == Seen(tiles, w, i, 9, cliffThreshold, rand)
    ensures Seen(tiles, w, i, 0, cliffThreshold, rand) == CarvedFirst(tiles, w, i, cliffThreshold, rand)
  {
    hide At, IsMap, Visited;
  }

  /** As long as no cliff of tile `t` is found, its type stays. */
  lemma {:induction false} NoTurnKeeps(tiles: seq<Tile>, w: nat, from: nat, n: nat, cliffThreshold: int, rand: nat -> nat, t: nat)
    requires IsMap(tiles, w) && w > 0 && from <= n <= |tiles| && t < |tiles|
    requires forall i: nat, k: nat :: from <= i < n && k < 9 ==> !Turns(tiles, w, i, k, cliffThreshold, rand, t)
    ensures var before, after := CarvedFirst(tiles, w, from, cliffThreshold, rand).tiles, CarvedFirst(tiles, w, n, cliffThreshold, rand).tiles;
            |before| == |after| == |tiles| && after[t].terrType == before[t].terrType
  {
    hide CarvedFirst, Turns, Seen, IsMap;
    SameMapSize(tiles, CarvedFirst(tiles, w, from, cliffThreshold, rand).tiles, w);
    SameMapSize(tiles, CarvedFirst(tiles, w, n, cliffThreshold, rand).tiles, w);
    if from < n {
      NoTurnKeeps(tiles, w, from, n - 1, cliffThreshold, rand, t);
      NextSeen(tiles, w, n - 1, cliffThreshold, rand);
      NoTurnAround(tiles, w, n - 1, 0, 9, cliffThreshold, rand, t);
    }
  }

  lemma {:induction false} NoTurnAround(tiles: seq<Tile>, w: nat, i: nat, from: nat, k: nat, cliffThreshold: int, rand: nat -> nat, t: nat)
    requires IsMap(tiles, w) && w > 0 && i < |tiles| && t < |tiles| && from <= k
    requires forall c: nat :: from <= c < k ==> !Turns(tiles, w, i, c, cliffThreshold, rand, t)
    ensures Seen(tiles, w, i, k, cliffThreshold, rand).tiles[t].terrType == Seen(tiles, w, i, from, cliffThreshold, rand).tiles[t].terrType
  {
    hide Turns, Seen, IsMap;
    if from < k {
      NoTurnAround(tiles, w, i, from, k - 1, cliffThreshold, rand, t);
      OneMoreSeen(tiles, w, i, k - 1, cliffThreshold, rand, t);
    }
  }

  /** Whatever is rolled, a tile ends with the type that the last cliff found at it was given:
      dirt with a ramp and rock without one.  */
  lemma LastCliffDecides(tiles: seq<Tile>, w: nat, i: nat, k: nat, cliffThreshold: int, rand: nat -> nat, t: nat)
    requires IsMap(tiles, w) && w > 0 && i < |tiles| && k < 9 && t < |tiles| && Turns(tiles, w, i, k, cliffThreshold, rand, t)
    requires forall c: nat :: k < c < 9 ==> !Turns(tiles, w, i, c, cliffThreshold, rand, t)
    requires forall j: nat, c: nat :: i < j < |tiles| && c < 9 ==> !Turns(tiles, w, j, c, cliffThreshold, rand, t)
    ensures var after := CarvedFirst(tiles, w, |tiles|, cliffThreshold, rand).tiles;
            |after| == |tiles| && after[t].terrType == RolledType(tiles, w, i, k, cliffThreshold, rand)
  {
    hide CarvedFirst, Turns, Seen, RolledType, IsMap;
    OneMoreSeen(tiles, w, i, k, cliffThreshold, rand, t);
    NoTurnAround(tiles, w, i, k + 1, 9, cliffThreshold, rand, t);
    NextSeen(tiles, w, i, cliffThreshold, rand);
    NoTurnKeeps(tiles, w, i + 1, |tiles|, cliffThreshold, rand, t);
  }

  // ---- When nothing happens ------------------------------------------------------------

  /** A cliff is found at a tile below `n`, or at tile `n` at a cell below `k`. */
  ghost predicate HasCliff(tiles: seq<Tile>, w: nat, cliffThreshold: int, n: nat, k: nat)
    requires w > 0
  {
    (exists c: nat :: c < k && CliffBy(tiles, w, cliffThreshold, n, c)) ||
    exists i: nat, c: nat :: i < n && CliffBy(tiles, w, cliffThreshold, i, c)
  }

  /** Nothing drawn and nothing changed yet, if and only if no cliff was found. */
  ghost predicate Quiet(before: seq<Tile>, c: Carving, w: nat, cliffThreshold: int, n: nat, k: nat)
    requires w > 0
  {
    (c.drawn == 0 <==> !HasCliff(before, w, cliffThreshold, n, k)) && (c.drawn == 0 ==> c.tiles == before)
  }

  lemma {:induction false} VisitedFirstQuiet(before: seq<Tile>, c: Carving, w: nat, i: nat, e: int, k: nat, cliffThreshold: int, rand: nat -> nat)
    requires w > 0 && IsMap(c.tiles, w) && |c.tiles| == |before| && i < |before| && k <= 9
    requires Quiet(before, c, w, cliffThreshold, i, 0) && (c.drawn == 0 ==> e == before[i].elevation)
    ensures Quiet(before, VisitedFirst(c, w, i, e, At(w, i).x, At(w, i).y, k, cliffThreshold, rand), w, cliffThreshold, i, k)
  {
    hide IsMap, Around, At, Ramped, Index, TurnBoth;
    if k > 0 {
      VisitedFirstQuiet(before, c, w, i, e, k - 1, cliffThreshold, rand);
      assert CliffBy(before, w, cliffThreshold, i, k - 1) <==> IsCliff(before, before[i].elevation, CellIndex(w, i, k - 1), cliffThreshold);
    }
  }

  /** Whatever the random numbers, the stage draws none and leaves the whole map as it was, if
      and only if the map has no cliff.  */
  lemma {:induction false} QuietWithoutCliffs(tiles: seq<Tile>, w: nat, n: nat, cliffThreshold: int, rand: nat -> nat)
    requires IsMap(tiles, w) && w > 0 && n <= |tiles|
    ensures Quiet(tiles, CarvedFirst(tiles, w, n, cliffThreshold, rand), w, cliffThreshold, n, 0)
  {
    hide VisitedFirst, At, IsMap, CliffBy;
    if n > 0 {
      QuietWithoutCliffs(tiles, w, n - 1, cliffThreshold, rand);
      var c := CarvedFirst(tiles, w, n - 1, cliffThreshold, rand);
      SameMapSize(tiles, c.tiles, w);
      VisitedFirstQuiet(tiles, c, w, n - 1, c.tiles[n - 1].elevation, 9, cliffThreshold, rand);
      assert HasCliff(tiles, w, cliffThreshold, n - 1, 9) <==> HasCliff(tiles, w, cliffThreshold, n, 0) by {
        CliffAtCell(tiles, w, cliffThreshold, n - 1);
      }
    }
  }

  lemma CliffAtCell(tiles: seq<Tile>, w: nat, cliffThreshold: int, i: nat)
    requires w > 0
    ensures forall c: nat :: CliffBy(tiles, w, cliffThreshold, i, c) ==> c < 9
  {
  }
}
