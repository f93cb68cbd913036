/** Where a ramp goes, tile by tile, in coordinates from its start. */
module RampShapes {
  import opened Grid
  import opened Tiles
  import opened RampGenerator
  import opened Noise

  /** The steps of the eight directions. */
  function StepX(d: nat): int {
    if 1 <= d <= 3 then 1 else if 5 <= d <= 7 then -1 else 0
  }

  function StepY(d: nat): int {
    if d == 7 || d <= 1 then -1 else if 3 <= d <= 5 then 1 else 0
  }

  lemma TowardsIs(x: int, y: int, d: nat)
    requires d < 8
    ensures Towards(x, y, d) == Node(x + StepX(d), y + StepY(d))
  {
  }

  // ---- The choice of the direction -----------------------------------------------------

  /** The neighbour at (px, py) is on the map and at least 2 below the start. */
  ghost predicate LowAt(tiles: seq<Tile>, w: nat, begin: ubyte, px: int, py: int)
    requires IsMap(tiles, w)
  {
    InGrid(w, Node(px, py)) && HeightAt(tiles, w, Node(px, py)) <= begin - 2
  }

  ghost function Low(tiles: seq<Tile>, w: nat, begin: ubyte, px: int, py: int): nat
    requires IsMap(tiles, w)
  {
    if LowAt(tiles, w, begin, px, py) then 1 else 0
  }

  /** With one, two or three low tiles on it a side weighs 1, 3 or 7. */
  function OneThreeSeven(n: nat): nat {
    if n == 0 then 0 else if n == 1 then 1 else if n == 2 then 3 else 7
  }

  /** How many of the three tiles on a side (N, E, S and W) are low. */
  ghost function LowOnSide(tiles: seq<Tile>, w: nat, x: int, y: int, begin: ubyte, side: nat): nat
    requires IsMap(tiles, w)
  {
    if side == 0 then Low(tiles, w, begin, x - 1, y - 1) + Low(tiles, w, begin, x, y - 1) + Low(tiles, w, begin, x + 1, y - 1)
    else if side == 1 then Low(tiles, w, begin, x + 1, y - 1) + Low(tiles, w, begin, x + 1, y) + Low(tiles, w, begin, x + 1, y + 1)
    else if side == 2 then Low(tiles, w, begin, x - 1, y + 1) + Low(tiles, w, begin, x, y + 1) + Low(tiles, w, begin, x + 1, y + 1)
    else Low(tiles, w, begin, x - 1, y - 1) + Low(tiles, w, begin, x - 1, y) + Low(tiles, w, begin, x - 1, y + 1)
  }

  lemma OneCell(tiles: seq<Tile>, w: nat, x: int, y: int, begin: ubyte, side: nat, k: nat)
    requires IsMap(tiles, w) && k < 9
    ensures LowOn(tiles, w, x, y, begin, side, k + 1) == LowOn(tiles, w, x, y, begin, side, k) +
            if k != 4 && OnSide(x, y, Node(x - 1 + k % 3, y - 1 + k / 3), side) then Low(tiles, w, begin, x - 1 + k % 3, y - 1 + k / 3) else 0
  {
    hide HeightAt, OnSide;
  }

  lemma NoCell(tiles: seq<Tile>, w: nat, x: int, y: int, begin: ubyte, side: nat)
    requires IsMap(tiles, w)
    ensures LowOn(tiles, w, x, y, begin, side, 0) == 0
  {
  }

  lemma SideCounts(tiles: seq<Tile>, w: nat, x: int, y: int, begin: ubyte, side: nat)
    requires IsMap(tiles, w) && side < 4
    ensures LowOn(tiles, w, x, y, begin, side, 9) == LowOnSide(tiles, w, x, y, begin, side)
  {
    hide LowOn, Low;
    NoCell(tiles, w, x, y, begin, side);
    OneCell(tiles, w, x, y, begin, side, 0);
    OneCell(tiles, w, x, y, begin, side, 1);
    OneCell(tiles, w, x, y, begin, side, 2);
    OneCell(tiles, w, x, y, begin, side, 3);
    OneCell(tiles, w, x, y, begin, side, 4);
    OneCell(tiles, w, x, y, begin, side, 5);
    OneCell(tiles, w, x, y, begin, side, 6);
    OneCell(tiles, w, x, y, begin, side, 7);
    OneCell(tiles, w, x, y, begin, side, 8);
  }

  lemma SideWeighs(tiles: seq<Tile>, w: nat, x: int, y: int, begin: ubyte, side: nat)
    requires IsMap(tiles, w) && side < 4
    ensures SideWeight(tiles, w, x, y, begin, side, 9) == OneThreeSeven(LowOnSide(tiles, w, x, y, begin, side))
  {
    SideCounts(tiles, w, x, y, begin, side);
    hide LowOn, Low;
    assert Pow2(0) == 1 && Pow2(1) == 2 && Pow2(2) == 4 && Pow2(3) == 8;
  }

  /** A diagonal between sides that weigh `a` and `b`. */
  function Between(a: nat, b: nat): nat {
    if a + b < 2 then 0 else (a + b) / 2 + 1
  }

  /** The weight of each direction: of its side, or between its two sides. */
  ghost function Weight(tiles: seq<Tile>, w: nat, x: int, y: int, begin: ubyte, d: nat): nat
    requires IsMap(tiles, w)
  {
    ByDirection(OneThreeSeven(LowOnSide(tiles, w, x, y, begin, 0)), OneThreeSeven(LowOnSide(tiles, w, x, y, begin, 1)),
                OneThreeSeven(LowOnSide(tiles, w, x, y, begin, 2)), OneThreeSeven(LowOnSide(tiles, w, x, y, begin, 3)), d)
  }

  function ByDirection(n: nat, e: nat, s: nat, w: nat, d: nat): nat {
    if d == 0 then n else if d == 1 then Between(n, e) else if d == 2 then e else if d == 3 then Between(e, s)
    else if d == 4 then s else if d == 5 then Between(s, w) else if d == 6 then w else Between(w, n)
  }

  /** A ramp goes in the first of the heaviest directions. */
  lemma HeaviestWins(tiles: seq<Tile>, w: nat, x: int, y: int, rampWidth: nat, k: nat)
    requires IsMap(tiles, w) && OnMap(tiles, w, x, y) && k < 8
    ensures var begin, d := tiles[Index(w, Node(x, y))].elevation, RampFrom(tiles, w, x, y, rampWidth).direction;
            && Weight(tiles, w, x, y, begin, k) <= Weight(tiles, w, x, y, begin, d)
            && (k < d ==> Weight(tiles, w, x, y, begin, k) < Weight(tiles, w, x, y, begin, d))
  {
    hide SideWeight, BestOf, PackedHeight, Weight, AllWeights;
    var begin := tiles[Index(w, Node(x, y))].elevation;
    WeightsAre(tiles, w, x, y, begin);
    BestIsFirstGreatest(WeightsOf(tiles, w, x, y, begin), 8);
  }

  /** The eight weights as the program has them. */
  ghost function WeightsOf(tiles: seq<Tile>, w: nat, x: int, y: int, begin: ubyte): (r: seq<int>)
    requires IsMap(tiles, w)
    ensures |r| == 8
  {
    AllWeights(SideWeight(tiles, w, x, y, begin, 0, 9), SideWeight(tiles, w, x, y, begin, 1, 9),
               SideWeight(tiles, w, x, y, begin, 2, 9), SideWeight(tiles, w, x, y, begin, 3, 9))
  }

  lemma WeightsAre(tiles: seq<Tile>, w: nat, x: int, y: int, begin: ubyte)
    requires IsMap(tiles, w)
    ensures forall d: nat :: d < 8 ==> WeightsOf(tiles, w, x, y, begin)[d] == Weight(tiles, w, x, y, begin, d)
  {
    SideWeighs(tiles, w, x, y, begin, 0);
    SideWeighs(tiles, w, x, y, begin, 1);
    SideWeighs(tiles, w, x, y, begin, 2);
    SideWeighs(tiles, w, x, y, begin, 3);
    hide SideWeight, LowOnSide, OneThreeSeven, AllWeights, ByDirection;
    AllByDirection(SideWeight(tiles, w, x, y, begin, 0, 9), SideWeight(tiles, w, x, y, begin, 1, 9),
                   SideWeight(tiles, w, x, y, begin, 2, 9), SideWeight(tiles, w, x, y, begin, 3, 9));
  }

  lemma AllByDirection(n: nat, e: nat, s: nat, w: nat)
    ensures forall d: nat :: d < 8 ==> AllWeights(n, e, s, w)[d] == ByDirection(n, e, s, w, d)
  {
    hide Diagonal, Between;
    DiagonalIsBetween(n, e);
    DiagonalIsBetween(s, e);
    DiagonalIsBetween(s, w);
    DiagonalIsBetween(n, w);
  }

  lemma DiagonalIsBetween(a: nat, b: nat)
    ensures Diagonal(a, b) == Between(a, b) == Between(b, a)
  {
  }

  // ---- The tiles of a ramp -------------------------------------------------------------

  /** `n` steps of 1, 0 or -1. */
  function Steps(step: int, n: int): int {
    if step == 1 then n else if step == -1 then -n else 0
  }

  predicate IsDiagonal(d: nat) {
    d % 2 == 1
  }

  /** Straight ramps are as wide as asked for, and diagonal ones a tile wider. */
  function WidthOf(d: nat, rampWidth: nat): nat {
    if IsDiagonal(d) then rampWidth + 1 else rampWidth
  }

  /** The tile `j` rows on in direction `d` and `m` tiles along the row, which is across the
      direction on a straight ramp and east or west on a diagonal one, with the start in its
      middle.  */
  function TileOf(x: int, y: int, d: nat, width: nat, m: nat, j: nat): Node {
    var off := m - width / 2;
    if IsDiagonal(d) then Node(x + Steps(StepX(d), j + off), y + Steps(StepY(d), j))
    else if StepX(d) == 0 then Node(x + off, y + Steps(StepY(d), j))
    else Node(x + Steps(StepX(d), j), y + off)
  }

  /** How far it is below the start: 2 for each row, and on a diagonal 1 for each tile along. */
  function DropOf(d: nat, m: nat, j: nat): nat {
    if IsDiagonal(d) then 2 * j + m else 2 * j
  }

  /** In the program's own numbering the cells of direction 5 run the other way. */
  function CellNumber(d: nat, width: nat, m: nat): nat
    requires m < width
  {
    if d == 5 then width - 1 - m else m
  }

  lemma CellIsTile(x: int, y: int, d: nat, rampWidth: nat, begin: ubyte, target: ubyte, m: nat, j: nat)
    requires d < 8 && m < WidthOf(d, rampWidth)
    ensures var r := RampTowards(d, x, y, rampWidth, begin, target);
            && r.width == WidthOf(d, rampWidth) && CellNumber(d, r.width, m) < r.width
            && RampCell(r, CellNumber(d, r.width, m), j) == (TileOf(x, y, d, r.width, m, j), DropOf(d, m, j))
  {
  }

  /** The whole ramp from (x, y): each of its tiles that is on the map, and not below the target
      height, ends as far below the start as its place says.  */
  lemma RampTiles(tiles: seq<Tile>, w: nat, x: int, y: int, rampWidth: nat, m: nat, j: nat)
    requires IsMap(tiles, w) && OnMap(tiles, w, x, y)
    requires var r := RampFrom(tiles, w, x, y, rampWidth);
             var p := TileOf(x, y, r.direction, WidthOf(r.direction, rampWidth), m, j);
             m < WidthOf(r.direction, rampWidth) && j < r.begin && InGrid(w, p)
    ensures var r := RampFrom(tiles, w, x, y, rampWidth);
            var t := Index(w, TileOf(x, y, r.direction, WidthOf(r.direction, rampWidth), m, j));
            var low := r.begin - DropOf(r.direction, m, j);
            && 0 <= t < |tiles| && |Ramped(tiles, w, x, y, rampWidth)| == |tiles|
            && Ramped(tiles, w, x, y, rampWidth)[t] == if low >= r.target then tiles[t].(elevation := low) else tiles[t]
  {
    var r := RampFrom(tiles, w, x, y, rampWidth);
    CellIsTile(x, y, r.direction, rampWidth, r.begin, r.target, m, j);
    var i := CellNumber(r.direction, r.width, m);
    var p := RampCell(r, i, j).0;
    IndexBounds(w, p);
    RampShape(tiles, w, r, r.begin, Index(w, p));
    assert Covers(w, r, i, j, Index(w, p));
    hide RampRows, RampFrom;
  }

  /** No other tile changes. */
  lemma RampNowhereElse(tiles: seq<Tile>, w: nat, x: int, y: int, rampWidth: nat, t: nat)
    requires IsMap(tiles, w) && OnMap(tiles, w, x, y) && t < |tiles|
    ensures |Ramped(tiles, w, x, y, rampWidth)| == |tiles|
    ensures Ramped(tiles, w, x, y, rampWidth)[t] != tiles[t] ==>
              var r := RampFrom(tiles, w, x, y, rampWidth);
              exists m: nat, j: nat :: m < WidthOf(r.direction, rampWidth) && j < r.begin &&
                Index(w, TileOf(x, y, r.direction, WidthOf(r.direction, rampWidth), m, j)) == t
  {
    var r := RampFrom(tiles, w, x, y, rampWidth);
    RampShape(tiles, w, r, r.begin, t);
    if Ramped(tiles, w, x, y, rampWidth)[t] != tiles[t] {
      var i: nat, j: nat :| i < r.width && j < r.begin && Covers(w, r, i, j, t);
      CellOnRamp(x, y, rampWidth, r, i, j);
    }
  }

  lemma CellOnRamp(x: int, y: int, rampWidth: nat, r: Ramp, i: nat, j: nat)
    requires r == RampTowards(r.direction, x, y, rampWidth, r.begin, r.target) && r.direction < 8 && i < r.width
    ensures r.width == WidthOf(r.direction, rampWidth)
    ensures RampCell(r, i, j).0 == TileOf(x, y, r.direction, r.width, CellNumber(r.direction, r.width, i), j)
  {
    CellIsTile(x, y, r.direction, rampWidth, r.begin, r.target, CellNumber(r.direction, r.width, i), j);
  }

  /** Each row of a ramp lies one step further in its direction than the row before. */
  lemma RowsLead(x: int, y: int, d: nat, width: nat, m: nat, j: nat)
    requires d < 8
    ensures var before, next := TileOf(x, y, d, width, m, j), TileOf(x, y, d, width, m, j + 1);
            && next == Towards(before.x, before.y, d)
            && TileOf(x, y, d, width, width / 2, 0) == Node(x, y)
  {
  }

  /** A straight ramp goes down by 2 with each step towards its direction, as long as that is on
      the map and not below the target, and leaves the tiles behind the start as they are.  */
  lemma StraightDescent(tiles: seq<Tile>, w: nat, x: int, y: int, rampWidth: nat, j: nat)
    requires IsMap(tiles, w) && InGrid(w, Node(x, y)) && OnMap(tiles, w, x, y) && rampWidth >= 1
    requires !IsDiagonal(RampFrom(tiles, w, x, y, rampWidth).direction) && j < RampFrom(tiles, w, x, y, rampWidth).begin
    ensures var r := RampFrom(tiles, w, x, y, rampWidth);
            var dx, dy := Towards(0, 0, r.direction).x, Towards(0, 0, r.direction).y;
            var ahead, behind := Node(x + Steps(dx, j), y + Steps(dy, j)), Node(x - Steps(dx, j + 1), y - Steps(dy, j + 1));
            && |Ramped(tiles, w, x, y, rampWidth)| == |tiles|
            && (InGrid(w, ahead) ==>
                  HeightAt(Ramped(tiles, w, x, y, rampWidth), w, ahead) ==
                  if r.begin - 2 * j >= r.target then r.begin - 2 * j else HeightAt(tiles, w, ahead))
            && (InGrid(w, behind) ==>
                  HeightAt(Ramped(tiles, w, x, y, rampWidth), w, behind) == HeightAt(tiles, w, behind))
  {
    hide RampFrom, Ramped, HeightAt;
    AheadDescends(tiles, w, x, y, rampWidth, j);
    BehindStays(tiles, w, x, y, rampWidth, j);
    TowardsIs(0, 0, RampFrom(tiles, w, x, y, rampWidth).direction);
  }

  lemma AheadDescends(tiles: seq<Tile>, w: nat, x: int, y: int, rampWidth: nat, j: nat)
    requires IsMap(tiles, w) && OnMap(tiles, w, x, y) && rampWidth >= 1
    requires !IsDiagonal(RampFrom(tiles, w, x, y, rampWidth).direction) && j < RampFrom(tiles, w, x, y, rampWidth).begin
    ensures IsMap(Ramped(tiles, w, x, y, rampWidth), w)
    ensures var r := RampFrom(tiles, w, x, y, rampWidth);
            var ahead := Node(x + Steps(StepX(r.direction), j), y + Steps(StepY(r.direction), j));
            InGrid(w, ahead) ==>
              HeightAt(Ramped(tiles, w, x, y, rampWidth), w, ahead) ==
              if r.begin - 2 * j >= r.target then r.begin - 2 * j else HeightAt(tiles, w, ahead)
  {
    hide RampFrom, Ramped, IsMap;
    var r := RampFrom(tiles, w, x, y, rampWidth);
    var ahead := Node(x + Steps(StepX(r.direction), j), y + Steps(StepY(r.direction), j));
    MiddleTile(x, y, r.direction, rampWidth, j);
    if InGrid(w, ahead) {
      hide TileOf, Steps, StepX, StepY, InGrid;
      RampTiles(tiles, w, x, y, rampWidth, rampWidth / 2, j);
      SameHeightIf(tiles, Ramped(tiles, w, x, y, rampWidth), w, ahead);
    }
  }

  lemma MiddleTile(x: int, y: int, d: nat, rampWidth: nat, j: nat)
    requires d < 8 && !IsDiagonal(d)
    ensures WidthOf(d, rampWidth) == rampWidth && DropOf(d, rampWidth / 2, j) == 2 * j
    ensures TileOf(x, y, d, rampWidth, rampWidth / 2, j) == Node(x + Steps(StepX(d), j), y + Steps(StepY(d), j))
  {
  }

  lemma SameHeightIf(a: seq<Tile>, b: seq<Tile>, w: nat, p: Node)
    requires IsMap(a, w) && IsMap(b, w) && InGrid(w, p)
    ensures 0 <= Index(w, p) < |a| == |b| && HeightAt(a, w, p) == a[Index(w, p)].elevation && HeightAt(b, w, p) == b[Index(w, p)].elevation
  {
    IndexBounds(w, p);
  }

  lemma BehindStays(tiles: seq<Tile>, w: nat, x: int, y: int, rampWidth: nat, j: nat)
    requires IsMap(tiles, w) && OnMap(tiles, w, x, y)
    ensures IsMap(Ramped(tiles, w, x, y, rampWidth), w) && |Ramped(tiles, w, x, y, rampWidth)| == |tiles|
    ensures var d := RampFrom(tiles, w, x, y, rampWidth).direction;
            var behind := Node(x - Steps(StepX(d), j + 1), y - Steps(StepY(d), j + 1));
            InGrid(w, behind) ==> HeightAt(Ramped(tiles, w, x, y, rampWidth), w, behind) == HeightAt(tiles, w, behind)
  {
    hide RampFrom, Ramped, IsMap;
    var d := RampFrom(tiles, w, x, y, rampWidth).direction;
    var behind := Node(x - Steps(StepX(d), j + 1), y - Steps(StepY(d), j + 1));
    SameMapSize(tiles, Ramped(tiles, w, x, y, rampWidth), w);
    if InGrid(w, behind) {
      SameHeightIf(tiles, Ramped(tiles, w, x, y, rampWidth), w, behind);
      BehindKept(tiles, w, x, y, rampWidth, behind);
    }
  }

  /** A tile of the map that lies behind the row of the start stays as it is. */
  lemma BehindKept(tiles: seq<Tile>, w: nat, x: int, y: int, rampWidth: nat, p: Node)
    requires IsMap(tiles, w) && OnMap(tiles, w, x, y) && InGrid(w, p) && 0 <= Index(w, p) < |tiles|
    requires var d := RampFrom(tiles, w, x, y, rampWidth).direction;
             if StepY(d) == 1 then p.y < y else if StepY(d) == -1 then p.y > y else if StepX(d) == 1 then p.x < x else p.x > x
    ensures |Ramped(tiles, w, x, y, rampWidth)| == |tiles| && Ramped(tiles, w, x, y, rampWidth)[Index(w, p)] == tiles[Index(w, p)]
  {
    var r := RampFrom(tiles, w, x, y, rampWidth);
    var t := Index(w, p);
    RampShape(tiles, w, r, r.begin, t);
    forall i: nat, j: nat | i < r.width && j < r.begin
      ensures !Covers(w, r, i, j, t)
    {
      if Covers(w, r, i, j, t) {
        IndexBounds(w, RampCell(r, i, j).0);
        IndexBounds(w, p);
        CellOnRamp(x, y, rampWidth, r, i, j);
      }
    }
    hide RampRows, RampFrom;
  }
}
