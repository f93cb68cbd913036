/** Ramps: which way one descends, how far, and what it writes.

    The heights around the start are packed in row order without the tiles off the map, and a
    fixed table then takes them to the eight directions.  */
module RampGenerator {
  import opened Grid
  import opened Tiles
  import opened Noise

  const RAMP_BUILD_THRESHOLD := 2

  /** `w` is the width of the map. */
  ghost predicate IsMap(tiles: seq<Tile>, w: nat) {
    |tiles| == w * w
  }

  /** The index is on the map; `x` alone may leave it. */
  ghost predicate OnMap(tiles: seq<Tile>, w: nat, x: int, y: int) {
    0 <= Index(w, Node(x, y)) < |tiles|
  }

  lemma SameMapSize(a: seq<Tile>, b: seq<Tile>, w: nat)
    requires IsMap(a, w) && IsMap(b, w)
    ensures |a| == |b|
  {
  }

  ghost function HeightAt(tiles: seq<Tile>, w: nat, p: Node): ubyte
    requires IsMap(tiles, w) && InGrid(w, p)
  {
    IndexBounds(w, p);
    tiles[Index(w, p)].elevation
  }

  lemma HeightIs(tiles: seq<Tile>, w: nat, p: Node)
    requires IsMap(tiles, w) && InGrid(w, p)
    ensures 0 <= p.x + p.y * w < |tiles| && Index(w, p) == p.x + p.y * w
    ensures HeightAt(tiles, w, p) == tiles[p.x + p.y * w].elevation
  {
    IndexBounds(w, p);
  }

  // ---- The tiles around the start ------------------------------------------------------

  /** Cell `k` of the 3 by 3 square around (x, y), row by row; the middle is cell 4. */
  ghost function Around(x: int, y: int, k: nat): Node {
    Node(x - 1 + k % 3, y - 1 + k / 3)
  }

  ghost predicate Counts(w: nat, x: int, y: int, k: nat) {
    k != 4 && InGrid(w, Around(x, y, k))
  }

  /** The neighbours on the map among the first `k` cells. */
  ghost function Neighbours(w: nat, x: int, y: int, k: nat): (r: seq<Node>)
    ensures forall q :: q in r ==> InGrid(w, q)
  {
    if k == 0 then [] else Neighbours(w, x, y, k - 1) + if Counts(w, x, y, k - 1) then [Around(x, y, k - 1)] else []
  }

  lemma {:induction false} HowMany(w: nat, x: int, y: int, k: nat)
    ensures |Neighbours(w, x, y, k)| <= if k > 4 then k - 1 else k
    ensures |Neighbours(w, x, y, k)| == (if k > 4 then k - 1 else k) <==> forall c: nat :: c < k && c != 4 ==> Counts(w, x, y, c)
  {
    hide InGrid, Around;
    if k > 0 {
      HowMany(w, x, y, k - 1);
    }
  }

  /** The height at position `j` of the packed array: 0 when nothing was put there. */
  ghost function PackedHeight(tiles: seq<Tile>, w: nat, ns: seq<Node>, j: nat): ubyte
    requires IsMap(tiles, w) && forall q :: q in ns ==> InGrid(w, q)
  {
    if j < |ns| then HeightAt(tiles, w, ns[j]) else 0
  }

  /** Sides 0 to 3 are N, E, S and W. */
  predicate OnSide(x: int, y: int, p: Node, side: nat) {
    (side == 0 && p.y == y - 1) || (side == 1 && p.x == x + 1) || (side == 2 && p.y == y + 1) || (side == 3 && p.x == x - 1)
  }

  /** How many neighbours on a side, among the first `k` cells, are low enough for a ramp. */
  ghost function LowOn(tiles: seq<Tile>, w: nat, x: int, y: int, begin: ubyte, side: nat, k: nat): nat
    requires IsMap(tiles, w)
  {
    if k == 0 then 0
    else
      var p := Around(x, y, k - 1);
      LowOn(tiles, w, x, y, begin, side, k - 1) +
      if Counts(w, x, y, k - 1) && OnSide(x, y, p, side) && begin - HeightAt(tiles, w, p) >= RAMP_BUILD_THRESHOLD then 1 else 0
  }

  /** Each low neighbour doubles the weight of its side and adds one. */
  ghost function SideWeight(tiles: seq<Tile>, w: nat, x: int, y: int, begin: ubyte, side: nat, k: nat): nat
    requires IsMap(tiles, w)
  {
    Pow2(LowOn(tiles, w, x, y, begin, side, k)) - 1
  }

  /** What the two arrays hold when the first `k` cells were looked at. */
  ghost predicate Looked(tiles: seq<Tile>, w: nat, x: int, y: int, begin: ubyte, k: nat, dirWeights: seq<int>, dirHeights: seq<int>, index: int)
    requires IsMap(tiles, w)
  {
    && |dirWeights| == |dirHeights| == 8
    && index == |Neighbours(w, x, y, k)|
    && (forall j :: 0 <= j < 8 ==> dirHeights[j] == PackedHeight(tiles, w, Neighbours(w, x, y, k), j))
    && dirWeights[0] == SideWeight(tiles, w, x, y, begin, 0, k)
    && dirWeights[2] == SideWeight(tiles, w, x, y, begin, 1, k)
    && dirWeights[4] == SideWeight(tiles, w, x, y, begin, 2, k)
    && dirWeights[6] == SideWeight(tiles, w, x, y, begin, 3, k)
  }

  /** What one low neighbour adds to the weights of N, E, S and W (positions 0, 2, 4 and 6). */
  method AddWeights(dirWeights: array<int>, posX: int, posY: int, x: int, y: int)
    requires dirWeights.Length == 8
    modifies dirWeights
    ensures forall side: nat :: side < 4 ==>
              dirWeights[2 * side] == if OnSide(posX, posY, Node(x, y), side) then 2 * old(dirWeights[2 * side]) + 1 else old(dirWeights[2 * side])
  {
    if y == posY - 1 {
      dirWeights[0] := dirWeights[0] + 1 + dirWeights[0];
    } else if y == posY + 1 {
      dirWeights[4] := dirWeights[4] + 1 + dirWeights[4];
    }
    if x == posX + 1 {
      dirWeights[2] := dirWeights[2] + 1 + dirWeights[2];
    }
    if x == posX - 1 {
      dirWeights[6] := dirWeights[6] + 1 + dirWeights[6];
    }
  }

  /** Collects the heights of the neighbours, packed in row order, and the direction weights. */
  method LookAtNeighbours(world: array<Tile>, w: nat, posX: int, posY: int, rampBeginHeight: ubyte,
                          dirWeights: array<int>, dirHeights: array<int>)
    requires IsMap(world[..], w) && dirWeights.Length == dirHeights.Length == 8 && dirWeights != dirHeights
    requires forall k :: 0 <= k < 8 ==> dirWeights[k] == dirHeights[k] == 0
    modifies dirWeights, dirHeights
    ensures Looked(world[..], w, posX, posY, rampBeginHeight, 9, dirWeights[..], dirHeights[..], |Neighbours(w, posX, posY, 9)|)
  {
    NothingLooked(world[..], w, posX, posY, rampBeginHeight, dirWeights[..], dirHeights[..]);
    hide *;
    ghost var tiles := world[..];
    var dirHeightsIndex := 0;
    for y := posY - 1 to posY + 2
      invariant Looked(tiles, w, posX, posY, rampBeginHeight, 3 * (y - posY + 1), dirWeights[..], dirHeights[..], dirHeightsIndex)
    {
      dirHeightsIndex := LookAtRow(world, w, posX, posY, rampBeginHeight, y, dirWeights, dirHeights, dirHeightsIndex, y - posY + 1);
    }
    IndexCounts(tiles, w, posX, posY, rampBeginHeight, 9, dirWeights[..], dirHeights[..], dirHeightsIndex);
  }

  /** The inner loop. */
  method LookAtRow(world: array<Tile>, w: nat, posX: int, posY: int, rampBeginHeight: ubyte, y: int,
                   dirWeights: array<int>, dirHeights: array<int>, dirHeightsIndex: int, ghost row: nat)
    returns (dirHeightsIndex': int)
    requires IsMap(world[..], w) && dirWeights != dirHeights && row < 3 && y == posY - 1 + row
    requires Looked(world[..], w, posX, posY, rampBeginHeight, 3 * row, dirWeights[..], dirHeights[..], dirHeightsIndex)
    modifies dirWeights, dirHeights
    ensures Looked(world[..], w, posX, posY, rampBeginHeight, 3 * row + 3, dirWeights[..], dirHeights[..], dirHeightsIndex')
  {
    hide *;
    dirHeightsIndex' := dirHeightsIndex;
    for x := posX - 1 to posX + 2
      invariant Looked(world[..], w, posX, posY, rampBeginHeight, 3 * row + (x - posX + 1), dirWeights[..], dirHeights[..], dirHeightsIndex')
    {
      CellIs(posX, posY, row, x - posX + 1);
      dirHeightsIndex' := LookAtNeighbour(world, w, posX, posY, rampBeginHeight, x, y, dirWeights, dirHeights, dirHeightsIndex', 3 * row + (x - posX + 1));
    }
  }

  lemma IndexCounts(tiles: seq<Tile>, w: nat, x: int, y: int, begin: ubyte, k: nat, dirWeights: seq<int>, dirHeights: seq<int>, index: int)
    requires IsMap(tiles, w) && Looked(tiles, w, x, y, begin, k, dirWeights, dirHeights, index)
    ensures index == |Neighbours(w, x, y, k)|
  {
  }

  lemma NothingLooked(tiles: seq<Tile>, w: nat, x: int, y: int, begin: ubyte, dirWeights: seq<int>, dirHeights: seq<int>)
    requires IsMap(tiles, w) && |dirWeights| == |dirHeights| == 8
    requires forall k :: 0 <= k < 8 ==> dirWeights[k] == dirHeights[k] == 0
    ensures Looked(tiles, w, x, y, begin, 0, dirWeights, dirHeights, 0)
  {
  }

  lemma CellIs(x: int, y: int, row: nat, column: nat)
    requires row < 3 && column < 3
    ensures 3 * row + column < 9 && Around(x, y, 3 * row + column) == Node(x - 1 + column, y - 1 + row)
  {
  }

  /** The body of the two loops, at cell `k`. */
  method LookAtNeighbour(world: array<Tile>, w: nat, posX: int, posY: int, rampBeginHeight: ubyte, x: int, y: int,
                         dirWeights: array<int>, dirHeights: array<int>, dirHeightsIndex: int, ghost k: nat)
    returns (dirHeightsIndex': int)
    requires IsMap(world[..], w) && dirWeights != dirHeights && k < 9 && Node(x, y) == Around(posX, posY, k)
    requires Looked(world[..], w, posX, posY, rampBeginHeight, k, dirWeights[..], dirHeights[..], dirHeightsIndex)
    modifies dirWeights, dirHeights
    ensures Looked(world[..], w, posX, posY, rampBeginHeight, k + 1, dirWeights[..], dirHeights[..], dirHeightsIndex')
  {
    hide Index, IsMap, HeightAt, Pow2, LowOn, Neighbours;
    dirHeightsIndex' := dirHeightsIndex;
    ghost var tiles := world[..];
    OneMoreNeighbour(tiles, w, posX, posY, rampBeginHeight, k);
    if x < 0 || x >= w || y < 0 || y >= w || (x == posX && y == posY) {
      return;
    }
    HeightIs(tiles, w, Node(x, y));
    HowMany(w, posX, posY, k);
    var adjacentElevation: int := world[x + y * w].elevation;
    dirHeights[dirHeightsIndex'] := adjacentElevation;
    dirHeightsIndex' := dirHeightsIndex' + 1;
    if rampBeginHeight as int - adjacentElevation >= RAMP_BUILD_THRESHOLD {
      AddWeights(dirWeights, posX, posY, x, y);
      assert dirWeights[2 * 0] == dirWeights[0] && dirWeights[2 * 1] == dirWeights[2];
      assert dirWeights[2 * 2] == dirWeights[4] && dirWeights[2 * 3] == dirWeights[6];
    }
  }

  /** What cell `k` adds. */
  lemma OneMoreNeighbour(tiles: seq<Tile>, w: nat, x: int, y: int, begin: ubyte, k: nat)
    requires IsMap(tiles, w) && k < 9
    ensures var p := Around(x, y, k);
            && (Counts(w, x, y, k) <==> InGrid(w, p) && !(p.x == x && p.y == y))
            && Neighbours(w, x, y, k + 1) == (if Counts(w, x, y, k) then Neighbours(w, x, y, k) + [p] else Neighbours(w, x, y, k))
            && forall side: nat :: side < 4 ==>
                 SideWeight(tiles, w, x, y, begin, side, k + 1) ==
                 if Counts(w, x, y, k) && OnSide(x, y, p, side) && begin - HeightAt(tiles, w, p) >= RAMP_BUILD_THRESHOLD
                 then 2 * SideWeight(tiles, w, x, y, begin, side, k) + 1 else SideWeight(tiles, w, x, y, begin, side, k)
  {
    hide HeightAt, OnSide;
  }

  // ---- The direction -------------------------------------------------------------------

  /** A diagonal has the mean of its two sides, and one more if that is not 0. */
  function Diagonal(a: int, b: int): int {
    Raised((a + b) / 2)
  }

  function Raised(v: int): int {
    if v > 0 then v + 1 else v
  }

  function AllWeights(n: int, e: int, s: int, w: int): (r: seq<int>)
    ensures |r| == 8
  {
    [n, Diagonal(n, e), e, Diagonal(s, e), s, Diagonal(s, w), w, Diagonal(n, w)]
  }

  /** The first with the greatest weight among the first `n`. */
  function BestOf(weights: seq<int>, n: nat): (d: nat)
    requires n <= |weights|
    ensures d == 0 || d < n
  {
    if n <= 1 then 0
    else
      var d := BestOf(weights, n - 1);
      if weights[n - 1] > weights[d] then n - 1 else d
  }

  lemma {:induction false} BestIsFirstGreatest(weights: seq<int>, n: nat)
    requires 0 < n <= |weights|
    ensures var d := BestOf(weights, n);
            && (forall k :: 0 <= k < n ==> weights[k] <= weights[d])
            && (forall k :: 0 <= k < d ==> weights[k] < weights[d])
  {
    if n > 1 {
      BestIsFirstGreatest(weights, n - 1);
    }
  }

  method ChooseDirection(dirWeights: array<int>) returns (direction: nat)
    requires dirWeights.Length == 8
    requires dirWeights[0] >= 0 && dirWeights[2] >= 0 && dirWeights[4] >= 0 && dirWeights[6] >= 0
    modifies dirWeights
    ensures direction == BestOf(AllWeights(old(dirWeights[0]), old(dirWeights[2]), old(dirWeights[4]), old(dirWeights[6])), 8)
  {
    ghost var n, e, s, w := dirWeights[0], dirWeights[2], dirWeights[4], dirWeights[6];
    ghost var all := AllWeights(n, e, s, w);
    dirWeights[1] := (dirWeights[0] + dirWeights[2]) / 2;
    dirWeights[3] := (dirWeights[4] + dirWeights[2]) / 2;
    dirWeights[5] := (dirWeights[4] + dirWeights[6]) / 2;
    dirWeights[7] := (dirWeights[0] + dirWeights[6]) / 2;
    for k := 0 to 4
      invariant dirWeights[..] == HalfRaised(n, e, s, w, k)
    {
      dirWeights[2 * k + 1] := Raised(dirWeights[2 * k + 1]);
    }
    assert dirWeights[..] == all;
    var highestVal := 0;
    direction := 0;
    for i := 0 to 8
      invariant direction == BestOf(all, i) && highestVal == if i == 0 then 0 else all[direction]
    {
      if dirWeights[i] > highestVal {
        highestVal, direction := dirWeights[i], i;
      }
    }
  }

  /** The weights when the first `k` diagonals are raised. */
  ghost function HalfRaised(n: int, e: int, s: int, w: int, k: nat): seq<int> {
    [n, if k > 0 then Diagonal(n, e) else (n + e) / 2,
     e, if k > 1 then Diagonal(s, e) else (s + e) / 2,
     s, if k > 2 then Diagonal(s, w) else (s + w) / 2,
     w, if k > 3 then Diagonal(n, w) else (n + w) / 2]
  }

  // ---- The target height ---------------------------------------------------------------

  // From a direction to a position in the packed array, and to its cell around the start.
  const SWAP_TARGET: seq<nat> := [1, 2, 4, 7, 6, 5, 3, 0]
  const CELL_TOWARDS: seq<nat> := [1, 2, 5, 8, 7, 6, 3, 0]

  /** Cell `k` is at the position that counts the neighbours before it, and no other cell is. */
  lemma {:induction false} PositionOf(w: nat, x: int, y: int, k: nat, n: nat)
    requires k < n <= 9 && Counts(w, x, y, k)
    ensures var ns := Neighbours(w, x, y, n);
            && |Neighbours(w, x, y, k)| < |ns| && ns[|Neighbours(w, x, y, k)|] == Around(x, y, k)
            && forall j: nat :: j < |ns| && ns[j] == Around(x, y, k) ==> j == |Neighbours(w, x, y, k)|
  {
    hide InGrid;
    if n > k + 1 {
      PositionOf(w, x, y, k, n - 1);
      AroundApart(x, y, k, n - 1);
    } else {
      NotYet(w, x, y, k, k);
    }
  }

  lemma AroundApart(x: int, y: int, k: nat, c: nat)
    requires k < 9 && c < 9 && k != c
    ensures Around(x, y, k) != Around(x, y, c)
  {
  }

  lemma {:induction false} NotYet(w: nat, x: int, y: int, k: nat, n: nat)
    requires n <= k < 9
    ensures Around(x, y, k) !in Neighbours(w, x, y, n)
  {
    if n > 0 {
      NotYet(w, x, y, k, n - 1);
      AroundApart(x, y, k, n - 1);
    }
  }

  /** The table finds the neighbour in a direction if and only if all neighbours before it in row
      order are on the map.  */
  lemma TableIsRight(w: nat, x: int, y: int, d: nat)
    requires d < 8 && InGrid(w, Around(x, y, CELL_TOWARDS[d]))
    ensures var ns := Neighbours(w, x, y, 9);
            (SWAP_TARGET[d] < |ns| && ns[SWAP_TARGET[d]] == Around(x, y, CELL_TOWARDS[d])) <==>
            forall k: nat :: k < CELL_TOWARDS[d] && k != 4 ==> Counts(w, x, y, k)
  {
    var c := CELL_TOWARDS[d];
    assert SWAP_TARGET[d] == if c > 4 then c - 1 else c;
    assert c != 4;
    PositionOf(w, x, y, c, 9);
    HowMany(w, x, y, c);
  }

  // ---- The ramp ------------------------------------------------------------------------

  /** A ramp from height `begin` down to `target`: where its row 0 starts, and how wide it is. */
  datatype Ramp = Ramp(direction: nat, x: int, y: int, width: nat, begin: ubyte, target: ubyte)

  /** The ramp that goes down from (x, y). */
  ghost function RampFrom(tiles: seq<Tile>, w: nat, x: int, y: int, rampWidth: nat): (r: Ramp)
    requires IsMap(tiles, w) && OnMap(tiles, w, x, y)
    ensures r.begin == tiles[Index(w, Node(x, y))].elevation && r.direction < 8
  {
    var begin := tiles[Index(w, Node(x, y))].elevation;
    var d := BestOf(AllWeights(SideWeight(tiles, w, x, y, begin, 0, 9), SideWeight(tiles, w, x, y, begin, 1, 9),
                               SideWeight(tiles, w, x, y, begin, 2, 9), SideWeight(tiles, w, x, y, begin, 3, 9)), 8);
    RampTowards(d, x, y, rampWidth, begin, PackedHeight(tiles, w, Neighbours(w, x, y, 9), SWAP_TARGET[d]))
  }

  /** Diagonals are one wider, and straight ramps are centred. */
  function RampTowards(d: nat, x: int, y: int, rampWidth: nat, begin: ubyte, target: ubyte): Ramp {
    var width := if d % 2 == 1 then rampWidth + 1 else rampWidth;
    Ramp(d, if d == 0 || d == 4 then x - width / 2 else x, if d == 2 || d == 6 then y - width / 2 else y, width, begin, target)
  }

  /** The tile the ramp towards `d` descends to. */
  ghost function Towards(x: int, y: int, d: nat): Node
    requires d < 8
  {
    Around(x, y, CELL_TOWARDS[d])
  }

  /** All neighbours before that tile in row order are on the map. */
  ghost predicate NoGap(w: nat, x: int, y: int, d: nat)
    requires d < 8
  {
    forall k: nat :: k < CELL_TOWARDS[d] && k != 4 ==> Counts(w, x, y, k)
  }

  /** The ramp from (x, y), if it goes towards `d`, aims at the height of its neighbour there. */
  ghost predicate AimsRight(tiles: seq<Tile>, w: nat, x: int, y: int, rampWidth: nat, d: nat)
    requires IsMap(tiles, w) && OnMap(tiles, w, x, y) && d < 8 && InGrid(w, Towards(x, y, d))
  {
    var r := RampFrom(tiles, w, x, y, rampWidth);
    r.direction == d ==> r.target == HeightAt(tiles, w, Towards(x, y, d))
  }

  lemma NoGapAimsRight(tiles: seq<Tile>, w: nat, x: int, y: int, rampWidth: nat, d: nat)
    requires IsMap(tiles, w) && OnMap(tiles, w, x, y) && d < 8 && InGrid(w, Towards(x, y, d)) && NoGap(w, x, y, d)
    ensures AimsRight(tiles, w, x, y, rampWidth, d)
  {
    hide SideWeight, BestOf, AllWeights, Neighbours, HeightAt;
    TableIsRight(w, x, y, d);
  }

  /** A flat map with one lower tile. */
  ghost function Dented(w: nat, p: Node, high: ubyte, low: ubyte): (r: seq<Tile>)
    ensures IsMap(r, w)
  {
    seq(w * w, i requires 0 <= i < w * w => Tile(Dirt, if i == Index(w, p) then low else high, Mild, 0, TileAction.Idle, N))
  }

  lemma DentedHeight(w: nat, p: Node, high: ubyte, low: ubyte, q: Node)
    requires InGrid(w, p) && InGrid(w, q)
    ensures HeightAt(Dented(w, p, high, low), w, q) == if q == p then low else high
  {
    IndexBounds(w, p);
    IndexBounds(w, q);
  }

  lemma {:induction false} LowOnDent(w: nat, x: int, y: int, c: nat, high: ubyte, low: ubyte, side: nat, k: nat)
    requires c < 9 && Counts(w, x, y, c) && high - low >= RAMP_BUILD_THRESHOLD && k <= 9
    ensures LowOn(Dented(w, Around(x, y, c), high, low), w, x, y, high, side, k) ==
            if c < k && OnSide(x, y, Around(x, y, c), side) then 1 else 0
  {
    hide Around, HeightAt, Dented, OnSide, InGrid;
    if k > 0 {
      LowOnDent(w, x, y, c, high, low, side, k - 1);
      if Counts(w, x, y, k - 1) {
        DentedHeight(w, Around(x, y, c), high, low, Around(x, y, k - 1));
        if k - 1 != c {
          AroundApart(x, y, k - 1, c);
        }
      }
    }
  }

  /** If the only low neighbour lies towards `d`, the ramp goes there. */
  lemma DentedChooses(w: nat, x: int, y: int, rampWidth: nat, d: nat, high: ubyte, low: ubyte)
    requires d < 8 && InGrid(w, Node(x, y)) && InGrid(w, Towards(x, y, d)) && high - low >= RAMP_BUILD_THRESHOLD
    ensures var tiles := Dented(w, Towards(x, y, d), high, low);
            OnMap(tiles, w, x, y) && RampFrom(tiles, w, x, y, rampWidth).direction == d
  {
    var p, tiles := Towards(x, y, d), Dented(w, Towards(x, y, d), high, low);
    IndexBounds(w, Node(x, y));
    DentedHeight(w, p, high, low, Node(x, y));
    SideOfDent(w, x, y, d, high, low, 0);
    SideOfDent(w, x, y, d, high, low, 1);
    SideOfDent(w, x, y, d, high, low, 2);
    SideOfDent(w, x, y, d, high, low, 3);
    OneSideBest(x, y, d);
    hide SideWeight, BestOf, AllWeights, Dented, PackedHeight, OnSide;
  }

  lemma SideOfDent(w: nat, x: int, y: int, d: nat, high: ubyte, low: ubyte, side: nat)
    requires d < 8 && InGrid(w, Towards(x, y, d)) && high - low >= RAMP_BUILD_THRESHOLD
    ensures SideWeight(Dented(w, Towards(x, y, d), high, low), w, x, y, high, side, 9) == OnlySide(x, y, d, side)
  {
    LowOnDent(w, x, y, CELL_TOWARDS[d], high, low, side, 9);
  }

  /** The weight of a side when the one low neighbour lies towards `d`. */
  ghost function OnlySide(x: int, y: int, d: nat, side: nat): nat
    requires d < 8
  {
    if OnSide(x, y, Towards(x, y, d), side) then 1 else 0
  }

  lemma OneSideBest(x: int, y: int, d: nat)
    requires d < 8
    ensures BestOf(AllWeights(OnlySide(x, y, d, 0), OnlySide(x, y, d, 1), OnlySide(x, y, d, 2), OnlySide(x, y, d, 3)), 8) == d
  {
    OnlySides(x, y, d);
    hide OnlySide, BestOf;
    var weights := AllWeights(OnlySide(x, y, d, 0), OnlySide(x, y, d, 1), OnlySide(x, y, d, 2), OnlySide(x, y, d, 3));
    BestIsFirstGreatest(weights, 8);
    assert forall k :: 0 <= k < 8 && k != d ==> weights[k] < weights[d];
  }

  lemma OnlySides(x: int, y: int, d: nat)
    requires d < 8
    ensures OnlySide(x, y, d, 0) == (if d == 7 || d <= 1 then 1 else 0) && OnlySide(x, y, d, 1) == (if 1 <= d <= 3 then 1 else 0)
    ensures OnlySide(x, y, d, 2) == (if 3 <= d <= 5 then 1 else 0) && OnlySide(x, y, d, 3) == (if 5 <= d then 1 else 0)
  {
  }

  /** A ramp from a tile of the map aims right, whatever the heights, if and only if all
      neighbours before the one it descends to are on the map.  */
  lemma AimsRightIffNoGap(w: nat, x: int, y: int, rampWidth: nat, d: nat)
    requires d < 8 && InGrid(w, Node(x, y)) && InGrid(w, Towards(x, y, d))
    ensures (forall tiles: seq<Tile> :: IsMap(tiles, w) && OnMap(tiles, w, x, y) ==> AimsRight(tiles, w, x, y, rampWidth, d)) <==>
            NoGap(w, x, y, d)
  {
    if NoGap(w, x, y, d) {
      forall tiles: seq<Tile> | IsMap(tiles, w) && OnMap(tiles, w, x, y)
        ensures AimsRight(tiles, w, x, y, rampWidth, d)
      {
        NoGapAimsRight(tiles, w, x, y, rampWidth, d);
      }
    } else {
      GapAimsWrong(w, x, y, rampWidth, d, 3, 1);
    }
  }

  /** The same for the height the table finds, from any position and in any direction. */
  lemma TableIsRightIffNoGap(w: nat, x: int, y: int, d: nat)
    requires d < 8 && InGrid(w, Towards(x, y, d))
    ensures (forall tiles: seq<Tile> :: IsMap(tiles, w) ==>
               PackedHeight(tiles, w, Neighbours(w, x, y, 9), SWAP_TARGET[d]) == HeightAt(tiles, w, Towards(x, y, d))) <==>
            NoGap(w, x, y, d)
  {
    hide Neighbours, HeightAt, Dented;
    var p, ns := Towards(x, y, d), Neighbours(w, x, y, 9);
    TableIsRight(w, x, y, d);
    if !NoGap(w, x, y, d) {
      var tiles := Dented(w, p, 2, 1);
      DentedHeight(w, p, 2, 1, p);
      if SWAP_TARGET[d] < |ns| {
        DentedHeight(w, p, 2, 1, ns[SWAP_TARGET[d]]);
      }
      assert PackedHeight(tiles, w, ns, SWAP_TARGET[d]) != HeightAt(tiles, w, p);
    }
  }

  /** With a gap, a ramp down to the only low neighbour, if that is not at height 0, aims at
      another height.  */
  lemma GapAimsWrong(w: nat, x: int, y: int, rampWidth: nat, d: nat, high: ubyte, low: ubyte)
    requires d < 8 && InGrid(w, Node(x, y)) && InGrid(w, Towards(x, y, d)) && !NoGap(w, x, y, d)
    requires low > 0 && high - low >= RAMP_BUILD_THRESHOLD
    ensures var tiles := Dented(w, Towards(x, y, d), high, low);
            && OnMap(tiles, w, x, y) && RampFrom(tiles, w, x, y, rampWidth).direction == d
            && HeightAt(tiles, w, Towards(x, y, d)) == low
            && RampFrom(tiles, w, x, y, rampWidth).target ==
               (if SWAP_TARGET[d] < |Neighbours(w, x, y, 9)| then high else 0)
            && !AimsRight(tiles, w, x, y, rampWidth, d)
  {
    var p, ns := Towards(x, y, d), Neighbours(w, x, y, 9);
    DentedChooses(w, x, y, rampWidth, d, high, low);
    TableIsRight(w, x, y, d);
    DentedHeight(w, p, high, low, p);
    if SWAP_TARGET[d] < |ns| {
      DentedHeight(w, p, high, low, ns[SWAP_TARGET[d]]);
    }
    hide SideWeight, BestOf, AllWeights, Dented, HeightAt, Neighbours;
  }

  /** For one, in the north-west corner: down to height 4 in the east, and no neighbour else
      below the start, the ramp aims at 0.  */
  lemma CornerAimsAtZero(w: nat, x: int, y: int, rampWidth: nat)
    requires w >= 2 && x == 0 && y == 0
    ensures var tiles := Dented(w, Node(1, 0), 8, 4);
            && OnMap(tiles, w, x, y) && RampFrom(tiles, w, x, y, rampWidth).direction == 2
            && HeightAt(tiles, w, Node(1, 0)) == 4 && RampFrom(tiles, w, x, y, rampWidth).target == 0
  {
    assert Towards(x, y, 2) == Node(1, 0);
    assert !Counts(w, x, y, 0);
    FewAtCorner(w, x, y, 9);
    GapAimsWrong(w, x, y, rampWidth, 2, 8, 4);
  }

  lemma {:induction false} FewAtCorner(w: nat, x: int, y: int, k: nat)
    requires x == 0 && y == 0 && k <= 9
    ensures |Neighbours(w, x, y, k)| <= if k < 6 then 0 else if k < 8 then 1 else k - 6
  {
    if k > 0 {
      FewAtCorner(w, x, y, k - 1);
    }
  }

  // ---- The neighbour it descends to ----------------------------------------------------

  /** Cell `c` is a neighbour low enough for a ramp. */
  ghost predicate IsLow(tiles: seq<Tile>, w: nat, x: int, y: int, begin: ubyte, c: nat)
    requires IsMap(tiles, w)
  {
    c < 9 && Counts(w, x, y, c) && begin - HeightAt(tiles, w, Around(x, y, c)) >= RAMP_BUILD_THRESHOLD
  }

  lemma {:induction false} LowSide(tiles: seq<Tile>, w: nat, x: int, y: int, begin: ubyte, side: nat, k: nat)
    requires IsMap(tiles, w) && k <= 9
    ensures LowOn(tiles, w, x, y, begin, side, k) > 0 <==>
            exists c: nat :: c < k && IsLow(tiles, w, x, y, begin, c) && OnSide(x, y, Around(x, y, c), side)
  {
    hide Counts, Around, HeightAt, OnSide;
    if k > 0 {
      LowSide(tiles, w, x, y, begin, side, k - 1);
    }
  }

  /** The weight of a side is 0 or odd, and if it is not 0, the side is on the map. */
  lemma SideOnMap(tiles: seq<Tile>, w: nat, x: int, y: int, begin: ubyte, side: nat)
    requires IsMap(tiles, w) && InGrid(w, Node(x, y)) && side < 4
    ensures var weight := SideWeight(tiles, w, x, y, begin, side, 9);
            weight == 0 ||
            (weight % 2 == 1 && if side == 0 then y > 0 else if side == 1 then x + 1 < w else if side == 2 then y + 1 < w else x > 0)
  {
    LowSide(tiles, w, x, y, begin, side, 9);
    var n := LowOn(tiles, w, x, y, begin, side, 9);
    if n > 0 {
      assert Pow2(n) == 2 * Pow2(n - 1);
      var c: nat :| c < 9 && IsLow(tiles, w, x, y, begin, c) && OnSide(x, y, Around(x, y, c), side);
    }
  }

  /** A diagonal wins only over two sides that both have weight. */
  lemma BestHasWeight(n: nat, e: nat, s: nat, w: nat)
    requires n > 0 || e > 0 || s > 0 || w > 0
    requires (n == 0 || n % 2 == 1) && (e == 0 || e % 2 == 1) && (s == 0 || s % 2 == 1) && (w == 0 || w % 2 == 1)
    ensures var d := BestOf(AllWeights(n, e, s, w), 8);
            && (d == 7 || d == 0 || d == 1 ==> n > 0) && (d == 1 || d == 2 || d == 3 ==> e > 0)
            && (d == 3 || d == 4 || d == 5 ==> s > 0) && (d == 5 || d == 6 || d == 7 ==> w > 0)
  {
    var weights := AllWeights(n, e, s, w);
    BestIsFirstGreatest(weights, 8);
    var d := BestOf(weights, 8);
    assert weights[0] == n && weights[2] == e && weights[4] == s && weights[6] == w;
    assert weights[0] <= weights[d] && weights[2] <= weights[d] && weights[4] <= weights[d] && weights[6] <= weights[d];
  }

  /** From a tile of the map with a low enough neighbour, the ramp goes towards a neighbour on
      the map.  */
  lemma DescendsOnMap(tiles: seq<Tile>, w: nat, x: int, y: int, rampWidth: nat, c: nat)
    requires IsMap(tiles, w) && InGrid(w, Node(x, y)) && OnMap(tiles, w, x, y)
    requires IsLow(tiles, w, x, y, tiles[Index(w, Node(x, y))].elevation, c)
    ensures InGrid(w, Towards(x, y, RampFrom(tiles, w, x, y, rampWidth).direction))
  {
    var begin := tiles[Index(w, Node(x, y))].elevation;
    var side: nat := if c < 3 then 0 else if c > 5 then 2 else if c == 5 then 1 else 3;
    assert OnSide(x, y, Around(x, y, c), side);
    LowSide(tiles, w, x, y, begin, side, 9);
    WeightOfLow(tiles, w, x, y, begin, side);
    SidesOnMap(tiles, w, x, y, begin);
    hide SideWeight, BestOf, AllWeights, PackedHeight, InGrid, Counts, Around, OnSide, HeightAt;
    TowardsOnMap(w, x, y, RampFrom(tiles, w, x, y, rampWidth).direction);
  }

  lemma SidesOnMap(tiles: seq<Tile>, w: nat, x: int, y: int, begin: ubyte)
    requires IsMap(tiles, w) && InGrid(w, Node(x, y))
    requires exists side: nat :: side < 4 && SideWeight(tiles, w, x, y, begin, side, 9) > 0
    ensures var d := BestOf(AllWeights(SideWeight(tiles, w, x, y, begin, 0, 9), SideWeight(tiles, w, x, y, begin, 1, 9),
                                       SideWeight(tiles, w, x, y, begin, 2, 9), SideWeight(tiles, w, x, y, begin, 3, 9)), 8);
            && (d == 7 || d <= 1 ==> y > 0) && (1 <= d <= 3 ==> x + 1 < w) && (3 <= d <= 5 ==> y + 1 < w) && (5 <= d ==> x > 0)
  {
    hide SideWeight, BestOf, AllWeights;
    SideOnMap(tiles, w, x, y, begin, 0);
    SideOnMap(tiles, w, x, y, begin, 1);
    SideOnMap(tiles, w, x, y, begin, 2);
    SideOnMap(tiles, w, x, y, begin, 3);
    BestHasWeight(SideWeight(tiles, w, x, y, begin, 0, 9), SideWeight(tiles, w, x, y, begin, 1, 9),
                  SideWeight(tiles, w, x, y, begin, 2, 9), SideWeight(tiles, w, x, y, begin, 3, 9));
  }

  lemma TowardsOnMap(w: nat, x: int, y: int, d: nat)
    requires d < 8 && InGrid(w, Node(x, y))
    requires (d == 7 || d <= 1 ==> y > 0) && (1 <= d <= 3 ==> x + 1 < w) && (3 <= d <= 5 ==> y + 1 < w) && (5 <= d ==> x > 0)
    ensures InGrid(w, Towards(x, y, d))
  {
  }

  lemma WeightOfLow(tiles: seq<Tile>, w: nat, x: int, y: int, begin: ubyte, side: nat)
    requires IsMap(tiles, w) && LowOn(tiles, w, x, y, begin, side, 9) > 0
    ensures SideWeight(tiles, w, x, y, begin, side, 9) > 0
  {
    assert Pow2(LowOn(tiles, w, x, y, begin, side, 9)) == 2 * Pow2(LowOn(tiles, w, x, y, begin, side, 9) - 1);
  }

  /** Cell `i` of row `j`, and how far below the start it is. */
  function RampCell(r: Ramp, i: nat, j: nat): (Node, int) {
    var half := r.width / 2;
    if r.direction == 0 then (Node(r.x + i, r.y - j), j * 2)
    else if r.direction == 6 then (Node(r.x - j, r.y + i), j * 2)
    else if r.direction == 2 then (Node(r.x + j, r.y + i), j * 2)
    else if r.direction == 1 then (Node(r.x + (i + j) - half, r.y - j), j * 2 + i)
    else if r.direction == 3 then (Node(r.x + (i + j) - half, r.y + j), j * 2 + i)
    else if r.direction == 5 then (Node(r.x - ((r.width - 1) - i) - j + half, r.y + j), j * 2 + ((r.width - 1) - i))
    else if r.direction == 7 then (Node(r.x - (i + j) + half, r.y - j), j * 2 + i)
    else (Node(r.x + i, r.y + j), j * 2)
  }

  /** No two cells of a ramp are the same tile. */
  lemma CellsApart(r: Ramp, i: nat, j: nat, i2: nat, j2: nat)
    requires RampCell(r, i, j).0 == RampCell(r, i2, j2).0
    ensures i == i2 && j == j2
  {
  }

  /** A tile lowered by `steep` from the start, unless that is below the target. */
  function Sloped(t: Tile, r: Ramp, steep: int): Tile {
    if r.target <= r.begin - steep < 256 then t.(elevation := r.begin - steep) else t
  }

  /** Cell (i, j) of the ramp is tile `t`. */
  ghost predicate Covers(w: nat, r: Ramp, i: nat, j: nat, t: int) {
    InGrid(w, RampCell(r, i, j).0) && Index(w, RampCell(r, i, j).0) == t
  }

  ghost function SetCell(tiles: seq<Tile>, w: nat, r: Ramp, i: nat, j: nat): (s: seq<Tile>)
    requires IsMap(tiles, w)
    ensures IsMap(s, w)
  {
    var (p, steep) := RampCell(r, i, j);
    if InGrid(w, p) then
      IndexBounds(w, p);
      tiles[Index(w, p) := Sloped(tiles[Index(w, p)], r, steep)]
    else tiles
  }

  /** The first `n` cells of row `j`. */
  ghost function RampRow(tiles: seq<Tile>, w: nat, r: Ramp, j: nat, n: nat): (s: seq<Tile>)
    requires IsMap(tiles, w)
    ensures IsMap(s, w)
  {
    if n == 0 then tiles else SetCell(RampRow(tiles, w, r, j, n - 1), w, r, n - 1, j)
  }

  /** The first `m` rows. */
  ghost function RampRows(tiles: seq<Tile>, w: nat, r: Ramp, m: nat): (s: seq<Tile>)
    requires IsMap(tiles, w)
    ensures IsMap(s, w)
  {
    if m == 0 then tiles else RampRow(RampRows(tiles, w, r, m - 1), w, r, m - 1, r.width)
  }

  /** The map with the ramp down from (x, y). */
  ghost function Ramped(tiles: seq<Tile>, w: nat, x: int, y: int, rampWidth: nat): (s: seq<Tile>)
    requires IsMap(tiles, w) && OnMap(tiles, w, x, y)
    ensures IsMap(s, w)
  {
    var r := RampFrom(tiles, w, x, y, rampWidth);
    RampRows(tiles, w, r, r.begin)
  }

  lemma SetCellAt(tiles: seq<Tile>, w: nat, r: Ramp, i: nat, j: nat, t: nat)
    requires IsMap(tiles, w) && t < |tiles|
    ensures SetCell(tiles, w, r, i, j)[t] == if Covers(w, r, i, j, t) then Sloped(tiles[t], r, RampCell(r, i, j).1) else tiles[t]
  {
  }

  lemma CoversOnce(w: nat, r: Ramp, i: nat, j: nat, i2: nat, j2: nat, t: int)
    requires Covers(w, r, i, j, t) && Covers(w, r, i2, j2, t)
    ensures i == i2 && j == j2
  {
    IndexBounds(w, RampCell(r, i, j).0);
    IndexBounds(w, RampCell(r, i2, j2).0);
    CellsApart(r, i, j, i2, j2);
  }

  /** What one row makes of a tile that it covers, or of one that it does not. */
  lemma {:induction false} RowShape(tiles: seq<Tile>, w: nat, r: Ramp, j: nat, n: nat, t: nat)
    requires IsMap(tiles, w) && t < |tiles|
    ensures forall i: nat :: i < n && Covers(w, r, i, j, t) ==>
              RampRow(tiles, w, r, j, n)[t] == Sloped(tiles[t], r, RampCell(r, i, j).1)
    ensures (forall i: nat :: i < n ==> !Covers(w, r, i, j, t)) ==> RampRow(tiles, w, r, j, n)[t] == tiles[t]
  {
    hide Covers, RampCell, Sloped, SetCell;
    if n > 0 {
      RowShape(tiles, w, r, j, n - 1, t);
      SetCellAt(RampRow(tiles, w, r, j, n - 1), w, r, n - 1, j, t);
      forall i: nat | i < n && Covers(w, r, i, j, t) && Covers(w, r, n - 1, j, t)
        ensures i == n - 1
      {
        CoversOnce(w, r, i, j, n - 1, j, t);
      }
    }
  }

  /** What the whole ramp makes of a tile: one that is cell (i, j) is as far below the start as
      that cell says, if that is not below the target, and all else is as before.  */
  lemma {:induction false} RampShape(tiles: seq<Tile>, w: nat, r: Ramp, m: nat, t: nat)
    requires IsMap(tiles, w) && t < |tiles|
    ensures forall i: nat, j: nat :: i < r.width && j < m && Covers(w, r, i, j, t) ==>
              RampRows(tiles, w, r, m)[t] == Sloped(tiles[t], r, RampCell(r, i, j).1)
    ensures (forall i: nat, j: nat :: i < r.width && j < m ==> !Covers(w, r, i, j, t)) ==> RampRows(tiles, w, r, m)[t] == tiles[t]
  {
    hide Covers, RampCell, Sloped, RampRow;
    if m > 0 {
      var j := m - 1;
      RampShape(tiles, w, r, j, t);
      RowShape(RampRows(tiles, w, r, j), w, r, j, r.width, t);
      if i: nat :| i < r.width && Covers(w, r, i, j, t) {
        forall i2: nat, j2: nat | Covers(w, r, i2, j2, t)
          ensures i2 == i && j2 == j
        {
          CoversOnce(w, r, i2, j2, i, j, t);
        }
      }
    }
  }

  /** What a ramp writes lies between its target and its start, and nothing but elevations. */
  lemma RampWithin(tiles: seq<Tile>, w: nat, r: Ramp, t: nat)
    requires IsMap(tiles, w) && t < |tiles|
    ensures var after := RampRows(tiles, w, r, r.begin)[t];
            after == tiles[t] || (after == tiles[t].(elevation := after.elevation) && r.target <= after.elevation <= r.begin)
  {
    hide RampRows, Covers;
    RampShape(tiles, w, r, r.begin, t);
    if i: nat, j: nat :| i < r.width && j < r.begin && Covers(w, r, i, j, t) {
      assert RampCell(r, i, j).1 >= 0;
    }
  }

  /** Cuts a ramp down from (posX, posY), which is a tile by its index alone. */
  method CreateRamp(world: array<Tile>, w: nat, posX: int, posY: int, rampWidth: nat)
    requires IsMap(world[..], w) && OnMap(world[..], w, posX, posY)
    modifies world
    ensures IsMap(old(world[..]), w) && world[..] == Ramped(old(world[..]), w, posX, posY, rampWidth)
  {
    StartIs(world[..], w, posX, posY);
    hide *;
    ghost var before := world[..];
    var rampBeginHeight := world[posX + posY * w].elevation;
    var dirWeights, dirHeights := new int[8](_ => 0), new int[8](_ => 0);
    LookAtNeighbours(world, w, posX, posY, rampBeginHeight, dirWeights, dirHeights);
    RampIs(before, w, posX, posY, rampWidth, rampBeginHeight, dirWeights[..], dirHeights[..]);
    var direction := ChooseDirection(dirWeights);
    var ramp := RampTowards(direction, posX, posY, rampWidth, rampBeginHeight, dirHeights[SWAP_TARGET[direction]]);
    NoRows(before, w, ramp);
    for j := 0 to ramp.begin
      invariant world[..] == RampRows(before, w, ramp, j)
    {
      CutRow(world, w, ramp, j);
      OneMoreRow(before, w, ramp, j);
    }
  }

  /** One step down of the ramp. */
  method CutRow(world: array<Tile>, w: nat, ramp: Ramp, j: nat)
    requires IsMap(world[..], w)
    modifies world
    ensures IsMap(old(world[..]), w) && world[..] == RampRow(old(world[..]), w, ramp, j, ramp.width)
  {
    hide *;
    ghost var before := world[..];
    NoCells(before, w, ramp, j);
    for i := 0 to ramp.width
      invariant world[..] == RampRow(before, w, ramp, j, i)
    {
      CutCell(world, w, ramp, i, j);
      OneMoreCell(before, w, ramp, j, i);
    }
  }

  method CutCell(world: array<Tile>, w: nat, ramp: Ramp, i: nat, j: nat)
    requires IsMap(world[..], w) && i < ramp.width
    modifies world
    ensures IsMap(old(world[..]), w) && world[..] == SetCell(old(world[..]), w, ramp, i, j)
  {
    hide HeightAt, Index, IsMap;
    var (tile, steepnessModifier) := RampCell(ramp, i, j);
    if 0 <= tile.x < w && 0 <= tile.y < w {
      HeightIs(world[..], w, tile);
      var index := tile.x + tile.y * w;
      var finalHeight := ramp.begin - steepnessModifier;
      if finalHeight >= ramp.target {
        world[index] := world[index].(elevation := finalHeight);
      }
    }
  }

  lemma StartIs(tiles: seq<Tile>, w: nat, x: int, y: int)
    requires OnMap(tiles, w, x, y)
    ensures Index(w, Node(x, y)) == x + y * w && 0 <= x + y * w < |tiles|
  {
  }

  lemma RampIs(tiles: seq<Tile>, w: nat, x: int, y: int, rampWidth: nat, begin: ubyte, dirWeights: seq<int>, dirHeights: seq<int>)
    requires IsMap(tiles, w) && OnMap(tiles, w, x, y) && begin == tiles[Index(w, Node(x, y))].elevation
    requires Looked(tiles, w, x, y, begin, 9, dirWeights, dirHeights, |Neighbours(w, x, y, 9)|)
    ensures |dirWeights| == |dirHeights| == 8 && forall i :: 0 <= i < 8 ==> 0 <= dirHeights[i] < 256
    ensures dirWeights[0] >= 0 && dirWeights[2] >= 0 && dirWeights[4] >= 0 && dirWeights[6] >= 0
    ensures var d := BestOf(AllWeights(dirWeights[0], dirWeights[2], dirWeights[4], dirWeights[6]), 8);
            d < 8 && SWAP_TARGET[d] < 8 && |SWAP_TARGET| == 8 &&
            RampTowards(d, x, y, rampWidth, begin, dirHeights[SWAP_TARGET[d]]) == RampFrom(tiles, w, x, y, rampWidth)
    ensures Ramped(tiles, w, x, y, rampWidth) == RampRows(tiles, w, RampFrom(tiles, w, x, y, rampWidth), begin)
  {
    hide BestOf, AllWeights, SideWeight, PackedHeight, RampRows;
  }

  lemma NoRows(tiles: seq<Tile>, w: nat, r: Ramp)
    requires IsMap(tiles, w)
    ensures RampRows(tiles, w, r, 0) == tiles
  {
  }

  lemma OneMoreRow(tiles: seq<Tile>, w: nat, r: Ramp, m: nat)
    requires IsMap(tiles, w)
    ensures RampRows(tiles, w, r, m + 1) == RampRow(RampRows(tiles, w, r, m), w, r, m, r.width)
  {
  }

  lemma NoCells(tiles: seq<Tile>, w: nat, r: Ramp, j: nat)
    requires IsMap(tiles, w)
    ensures RampRow(tiles, w, r, j, 0) == tiles
  {
  }

  lemma OneMoreCell(tiles: seq<Tile>, w: nat, r: Ramp, j: nat, n: nat)
    requires IsMap(tiles, w)
    ensures RampRow(tiles, w, r, j, n + 1) == SetCell(RampRow(tiles, w, r, j, n), w, r, n, j)
  {
  }
}
