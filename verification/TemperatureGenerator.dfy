/** Temperatures, and dunes where it is burning and dry. */
module TemperatureGenerator {
  import opened Grid
  import opened Tiles

  function Min(a: real, b: real): real { if b < a then b else a }
  function Max(a: int, b: int): int { if b > a then b else a }

  /** The score of a tile `distance` rows from the equator, from 0 to 6. */
  function TemperatureScore(distance: nat, elevation: ubyte): (score: int)
    ensures 0 <= score <= 6
  {
    var distScore := Min(distance as real / 49.0, 6.0);
    var elevationScore := elevation as real / 6.0;
    Max(6 - ((distScore + elevationScore) * 0.5).Floor, 0)
  }

  /** The seven temperatures in order of score: no score is without one. */
  function TemperatureOf(score: int): Temperature
    requires 0 <= score <= 6
  {
    [Freezing, Cold, Chilly, Mild, Warm, Hot, Burning][score]
  }

  function RowTemperature(y: int, equatorYPos: int, elevation: ubyte): Temperature {
    var distance := if y >= equatorYPos then y - equatorYPos else equatorYPos - y;
    TemperatureOf(TemperatureScore(distance, elevation))
  }

  /** Higher up and farther from the equator it is never warmer. */
  lemma ColderUpAndAway(d1: nat, d2: nat, e1: ubyte, e2: ubyte)
    requires d1 <= d2 && e1 <= e2
    ensures TemperatureScore(d2, e2) <= TemperatureScore(d1, e1)
  {
  }

  /** The temperature falls by one for each 588 of six times the distance from the equator, taken
      to be 294 at most, and 49 times the height.  */
  lemma TemperatureExactly(y: int, equatorYPos: int, elevation: ubyte)
    ensures var distance := if y < equatorYPos then equatorYPos - y else y - equatorYPos;
            var n := (6 * (if distance < 294 then distance else 294) + 49 * elevation) / 588;
            RowTemperature(y, equatorYPos, elevation) ==
            if n == 0 then Burning else if n == 1 then Hot else if n == 2 then Warm else if n == 3 then Mild
            else if n == 4 then Chilly else if n == 5 then Cold else Freezing
  {
    var distance: nat := if y < equatorYPos then equatorYPos - y else y - equatorYPos;
    var d := if distance < 294 then distance else 294;
    var half := (Min(distance as real / 49.0, 6.0) + elevation as real / 6.0) * 0.5;
    assert half == (6 * d + 49 * elevation) as real / 588.0;
    FloorIsQuotient(6 * d + 49 * elevation);
  }

  lemma FloorIsQuotient(n: nat)
    ensures (n as real / 588.0).Floor == n / 588
  {
    var q := n / 588;
    assert q as real <= n as real / 588.0 < q as real + 1.0;
  }

  /** The index of cell `k`, row by row, of the 6 by 6 square around (x, y). */
  ghost function SquareCell(w: nat, x: int, y: int, k: nat): int {
    x - 3 + k % 6 + (y - 3 + k / 6) * w
  }

  /** The water tiles among the first `k` cells of that square. */
  ghost function WaterAround(tiles: seq<Tile>, w: nat, x: int, y: int, k: nat): nat {
    if k == 0 then 0
    else
      var j := SquareCell(w, x, y, k - 1);
      WaterAround(tiles, w, x, y, k - 1) + if 0 <= j < |tiles| && tiles[j].terrType == Water then 1 else 0
  }

  /** The places in the square, from 3 before to 2 after (x, y), with water at their index. */
  ghost function WaterPlaces(tiles: seq<Tile>, w: nat, x: int, y: int): set<Node> {
    set x2, y2 | x - 3 <= x2 < x + 3 && y - 3 <= y2 < y + 3 && WaterAt(tiles, x2 + y2 * w) :: Node(x2, y2)
  }

  ghost predicate WaterAt(tiles: seq<Tile>, i: int) {
    0 <= i < |tiles| && tiles[i].terrType == Water
  }

  /** Those among the first `k` cells. */
  ghost function PlacesFirst(tiles: seq<Tile>, w: nat, x: int, y: int, k: nat): set<Node> {
    set x2, y2 | x - 3 <= x2 < x + 3 && y - 3 <= y2 < y + 3 && 6 * (y2 - y + 3) + x2 - x + 3 < k && WaterAt(tiles, x2 + y2 * w) :: Node(x2, y2)
  }

  lemma OneMorePlace(tiles: seq<Tile>, w: nat, x: int, y: int, k: nat)
    requires k < 36
    ensures var p := Node(x - 3 + k % 6, y - 3 + k / 6);
            && p !in PlacesFirst(tiles, w, x, y, k)
            && PlacesFirst(tiles, w, x, y, k + 1) ==
               PlacesFirst(tiles, w, x, y, k) + if WaterAt(tiles, SquareCell(w, x, y, k)) then {p} else {}
  {
    hide WaterAt;
    var p := Node(x - 3 + k % 6, y - 3 + k / 6);
    forall q: Node
      ensures q in PlacesFirst(tiles, w, x, y, k + 1) <==>
              q in PlacesFirst(tiles, w, x, y, k) || (q == p && WaterAt(tiles, SquareCell(w, x, y, k)))
    {
      if q.y == p.y {
        assert 6 * (q.y - y + 3) + q.x - x + 3 == k + q.x - p.x;
      }
    }
  }

  ghost function CountFirst(tiles: seq<Tile>, w: nat, x: int, y: int, k: nat): nat {
    |PlacesFirst(tiles, w, x, y, k)|
  }

  lemma OneMoreCell(tiles: seq<Tile>, w: nat, x: int, y: int, k: nat)
    requires k < 36
    ensures CountFirst(tiles, w, x, y, 0) == 0
    ensures CountFirst(tiles, w, x, y, k + 1) == CountFirst(tiles, w, x, y, k) + if WaterAt(tiles, SquareCell(w, x, y, k)) then 1 else 0
  {
    assert PlacesFirst(tiles, w, x, y, 0) == {};
    OneMorePlace(tiles, w, x, y, k);
    hide PlacesFirst, WaterAt, SquareCell;
  }

  lemma {:induction false} WaterAroundFirst(tiles: seq<Tile>, w: nat, x: int, y: int, k: nat)
    requires k <= 36
    ensures WaterAround(tiles, w, x, y, k) == CountFirst(tiles, w, x, y, k)
  {
    hide CountFirst, SquareCell;
    if k > 0 {
      OneMoreCell(tiles, w, x, y, k - 1);
      WaterAroundFirst(tiles, w, x, y, k - 1);
    } else {
      OneMoreCell(tiles, w, x, y, 0);
    }
  }

  /** The count of water is the number of those places. */
  lemma WaterAroundIs(tiles: seq<Tile>, w: nat, x: int, y: int)
    ensures WaterAround(tiles, w, x, y, 36) == |WaterPlaces(tiles, w, x, y)|
  {
    WaterAroundFirst(tiles, w, x, y, 36);
    assert PlacesFirst(tiles, w, x, y, 36) == WaterPlaces(tiles, w, x, y);
  }

  method NearWaterCount(world: array<Tile>, w: nat, x: int, y: int) returns (count: nat)
    ensures count == WaterAround(world[..], w, x, y, 36)
  {
    hide SquareCell;
    count := 0;
    for y2 := y - 3 to y + 3
      invariant count == WaterAround(world[..], w, x, y, 6 * (y2 - (y - 3)))
    {
      ghost var row: nat := y2 - (y - 3);
      for x2 := x - 3 to x + 3
        invariant count == WaterAround(world[..], w, x, y, 6 * row + (x2 - (x - 3)))
      {
        CellOf(w, x, y, row, x2 - (x - 3));
        var adjacentIndex := x2 + y2 * w;
        if 0 <= adjacentIndex < world.Length {
          if world[adjacentIndex].terrType == Water {
            count := count + 1;
          }
        }
      }
    }
  }

  lemma CellOf(w: nat, x: int, y: int, row: nat, column: nat)
    requires column < 6
    ensures SquareCell(w, x, y, 6 * row + column) == x - 3 + column + (y - 3 + row) * w
  {
    assert (6 * row + column) % 6 == column && (6 * row + column) / 6 == row;
  }

  /** Tile `i` after its turn, on a map that is `tiles` just before: dunes where it is burning,
      not rock, and fewer than three tiles of the square around are water.  */
  ghost function TemperedTile(tiles: seq<Tile>, w: nat, x: int, y: int, i: nat, equatorYPos: int): Tile
    requires i < |tiles|
  {
    var t, was := RowTemperature(y, equatorYPos, tiles[i].elevation), tiles[i].terrType;
    tiles[i].(temperature := t, terrType := if t == Burning && was != Rock && WaterAround(tiles, w, x, y, 36) < 3 then Dunes else was)
  }

  /** The map when the first `n` tiles had their turn. */
  ghost function TemperedFirst(tiles: seq<Tile>, w: nat, equatorYPos: int, n: nat): (r: seq<Tile>)
    requires n <= |tiles| && (n > 0 ==> w > 0)
    ensures |r| == |tiles|
  {
    if n == 0 then tiles
    else
      var m := TemperedFirst(tiles, w, equatorYPos, n - 1);
      m[n - 1 := TemperedTile(m, w, At(w, n - 1).x, At(w, n - 1).y, n - 1, equatorYPos)]
  }

  /** Each tile has one turn, and its count of water sees the dunes made by the turns before. */
  lemma {:induction false} EachTurn(tiles: seq<Tile>, w: nat, equatorYPos: int, n: nat, t: nat)
    requires w > 0 && n <= |tiles| && t < |tiles|
    ensures TemperedFirst(tiles, w, equatorYPos, n)[t] ==
            if t < n then TemperedTile(TemperedFirst(tiles, w, equatorYPos, t), w, At(w, t).x, At(w, t).y, t, equatorYPos) else tiles[t]
  {
    hide TemperedTile, At;
    if n > 0 {
      EachTurn(tiles, w, equatorYPos, n - 1, t);
    }
  }

  /** A tile ends as dunes, if it was none, exactly when it is burning, was not rock, and fewer
      than three of the 36 tiles were water when its turn came.  */
  lemma DunesExactly(tiles: seq<Tile>, w: nat, equatorYPos: int, t: nat)
    requires w > 0 && |tiles| == w * w && t < |tiles|
    ensures var after := TemperedFirst(tiles, w, equatorYPos, |tiles|)[t];
            var p := At(w, t);
            && after == tiles[t].(temperature := RowTemperature(p.y, equatorYPos, tiles[t].elevation), terrType := after.terrType)
            && (after.terrType == tiles[t].terrType || after.terrType == Dunes)
            && (tiles[t].terrType != Dunes ==>
                  (after.terrType == Dunes <==>
                     after.temperature == Burning && tiles[t].terrType != Rock && WaterAround(TemperedFirst(tiles, w, equatorYPos, t), w, p.x, p.y, 36) < 3))
  {
    EachTurn(tiles, w, equatorYPos, |tiles|, t);
    EachTurn(tiles, w, equatorYPos, t, t);
  }

  lemma {:induction false} FewerWater(a: seq<Tile>, b: seq<Tile>, w: nat, x: int, y: int, k: nat)
    requires |a| == |b| && forall t :: 0 <= t < |a| && a[t].terrType == Water ==> b[t].terrType == Water
    ensures WaterAround(a, w, x, y, k) <= WaterAround(b, w, x, y, k)
  {
    hide SquareCell;
    if k > 0 {
      FewerWater(a, b, w, x, y, k - 1);
    }
  }

  /** The water only dries: no turn raises a count. */
  lemma WaterDries(tiles: seq<Tile>, w: nat, equatorYPos: int, n: nat, x: int, y: int)
    requires w > 0 && n <= |tiles|
    ensures WaterAround(TemperedFirst(tiles, w, equatorYPos, n), w, x, y, 36) <= WaterAround(tiles, w, x, y, 36)
  {
    hide TemperedFirst, WaterAround;
    var m := TemperedFirst(tiles, w, equatorYPos, n);
    forall t: nat | t < |tiles| && m[t].terrType == Water
      ensures tiles[t].terrType == Water
    {
      EachTurn(tiles, w, equatorYPos, n, t);
      EachTurn(tiles, w, equatorYPos, t, t);
    }
    FewerWater(m, tiles, w, x, y, 36);
  }

  /** The body of the two loops. */
  method TemperTile(world: array<Tile>, w: nat, x: int, y: int, index: nat, equatorYPos: int)
    requires index < world.Length
    modifies world
    ensures world[..] == old(world[..])[index := TemperedTile(old(world[..]), w, x, y, index, equatorYPos)]
  {
    ghost var before := world[..];
    var temperature := RowTemperature(y, equatorYPos, world[index].elevation);
    world[index] := world[index].(temperature := temperature);
    FewerWater(before, world[..], w, x, y, 36);
    FewerWater(world[..], before, w, x, y, 36);
    if temperature == Burning && world[index].terrType != Rock {
      var nearWaterCount := NearWaterCount(world, w, x, y);
      if nearWaterCount < 3 {
        world[index] := world[index].(terrType := Dunes);
      }
    }
  }

  method GenerateTemperatureEffect(world: array<Tile>, w: nat, equatorYPos: int)
    requires world.Length == w * w
    modifies world
    ensures world[..] == TemperedFirst(old(world[..]), w, equatorYPos, world.Length)
  {
    RowStarts(w, 0);
    hide *;
    ghost var before := world[..];
    NoneTempered(before, w, equatorYPos);
    for y := 0 to w
      invariant RowStart(w, y) <= |before| && world[..] == TemperedFirst(before, w, equatorYPos, RowStart(w, y))
    {
      RowStarts(w, y);
      TemperRow(world, w, y, equatorYPos, before);
    }
  }

  /** The inner loop. */
  method TemperRow(world: array<Tile>, w: nat, y: nat, equatorYPos: int, ghost before: seq<Tile>)
    requires w > 0 && |before| == world.Length && RowStart(w, y) + w <= world.Length
    requires world[..] == TemperedFirst(before, w, equatorYPos, RowStart(w, y))
    modifies world
    ensures world[..] == TemperedFirst(before, w, equatorYPos, RowStart(w, y) + w)
  {
    hide *;
    for x := 0 to w
      invariant world[..] == TemperedFirst(before, w, equatorYPos, RowStart(w, y) + x)
    {
      IndexInRow(w, x, y);
      OneMoreTempered(before, w, equatorYPos, RowStart(w, y) + x);
      TemperTile(world, w, x, y, x + y * w, equatorYPos);
    }
  }

  lemma NoneTempered(tiles: seq<Tile>, w: nat, equatorYPos: int)
    ensures TemperedFirst(tiles, w, equatorYPos, 0) == tiles
  {
  }

  lemma OneMoreTempered(tiles: seq<Tile>, w: nat, equatorYPos: int, n: nat)
    requires w > 0 && n < |tiles|
    ensures var m := TemperedFirst(tiles, w, equatorYPos, n);
            TemperedFirst(tiles, w, equatorYPos, n + 1) == m[n := TemperedTile(m, w, At(w, n).x, At(w, n).y, n, equatorYPos)]
  {
  }
}
