/** The environment stage of world generation, on the world array. */
module EnvironmentGenerator {
  import opened Grid
  import opened Tiles
  import opened Sets
  import opened Fertility
  import opened FertilityReach

  // ---- The first frontier --------------------------------------------------------------

  ghost predicate WaterTile(ground: seq<Ground>, i: int) {
    0 <= i < |ground| && ground[i].terrType == Water
  }

  /** Tile `i` is beside a water tile below index `n`. */
  ghost predicate ShoreOf(ground: seq<Ground>, w: nat, i: int, n: nat) {
    exists j :: WaterTile(ground, j) && j < n && Beside(w, j, i)
  }

  /** Every water tile has a pool size of at least 1. */
  ghost predicate Sized(ground: seq<Ground>, sizes: map<int, int>) {
    forall i :: WaterTile(ground, i) ==> i in sizes && sizes[i] >= 1
  }

  /** Weights from pool sizes on the water, and the land next to it to check, for the water
      tiles below index `n`.  */
  ghost function InitialUpto(ground: seq<Ground>, w: nat, sizes: map<int, int>, n: nat): Env
    requires Sized(ground, sizes) && n <= |ground|
  {
    Env(WaterWeights(ground, sizes, n), Shores(ground, w, n), ground, true)
  }

  ghost function WaterWeights(ground: seq<Ground>, sizes: map<int, int>, n: nat): map<int, real>
    requires Sized(ground, sizes)
  {
    map i | i in Upto(n) && WaterTile(ground, i) :: sizes[i] as real * 0.1
  }

  ghost function Shores(ground: seq<Ground>, w: nat, n: nat): set<int> {
    set i | i in Upto(|ground|) && ground[i].terrType != Water && ShoreOf(ground, w, i, n)
  }

  ghost function Initial(ground: seq<Ground>, w: nat, sizes: map<int, int>): Env
    requires Sized(ground, sizes)
  {
    InitialUpto(ground, w, sizes, |ground|)
  }

  lemma InitialOk(ground: seq<Ground>, w: nat, sizes: map<int, int>, largest: int)
    requires Sized(ground, sizes) && forall i :: i in sizes ==> sizes[i] <= largest
    ensures EnvOk(Initial(ground, w, sizes), w)
    ensures Bounded(Initial(ground, w, sizes), w, largest as real * 0.1)
  {
    var e := Initial(ground, w, sizes);
    forall i | i in e.frontier
      ensures HasCounted(e, w, i)
    {
      var j :| WaterTile(ground, j) && Beside(w, j, i);
      BesideBack(w, j, i);
      var k: nat :| k < 8 && Neighbour(w, i, k) == j;
      assert Counted(e, w, i, k);
    }
    forall i | i in e.weights
      ensures Close(ground, w, i, e.weights[i], largest as real * 0.1)
    {
      assert ToWater(ground, w, i, 0);
    }
  }

  // ---- Looking at one tile -------------------------------------------------------------

  /** The neighbour loop: the sum, the count and the new tiles. */
  method ScoreTile(world: array<Tile>, w: nat, i: int, weights: map<int, real>, tilesToCheck: set<int>, first: bool)
    returns (score: real, count: nat, potential: set<int>)
    ensures var e := Env(weights, tilesToCheck, Grounds(world[..]), first);
            score == Score(e, w, i, 8) && count == Count(e, w, i, 8) && potential == Potential(e, w, i, 8)
  {
    ghost var e := Env(weights, tilesToCheck, Grounds(world[..]), first);
    score, count, potential := 0.0, 0, {};
    for k := 0 to 8
      invariant score == Score(e, w, i, k) && count == Count(e, w, i, k) && potential == Potential(e, w, i, k)
    {
      var j := Neighbour(w, i, k);
      if 0 <= j < world.Length && j !in tilesToCheck {
        if j !in weights {
          if world[j].terrType != Water {
            potential := potential + {j};
          }
        } else {
          var deg := if k % 2 == 1 then 2.0 else if first then 0.0 else 1.0;
          score := score + (weights[j] - deg * NegEffect(world[j].temperature));
          count := count + 1;
        }
      }
    }
  }

  datatype Plant = Tree | Spruce | Palm

  /** Palms where it is hot, spruces where it is cold, and now and then where it is mild. */
  function PlantFor(temperature: Temperature, r: nat): Plant {
    match temperature
    case Mild => if r % 5 == 0 then Spruce else Tree
    case Hot | Burning => Palm
    case Chilly | Cold | Freezing => Spruce
    case Warm => Tree
  }

  /** One in five tries plants something, and a taken tile stays as it is; `plants` is the thing
      id of each plant, and `dice` and `r` are random numbers.  */
  method AttemptPlant(world: array<Tile>, i: nat, temperature: Temperature, plants: Plant -> ubyte, dice: nat, r: nat)
    requires i < world.Length
    modifies world
    ensures world[..] == old(world[..])[i := if dice % 20 >= 16 && old(world[i]).thingId == 0
                                             then old(world[i]).(thingId := plants(PlantFor(temperature, r))) else old(world[i])]
  {
    if dice % 20 >= 16 && world[i].thingId == 0 {
      world[i] := world[i].(thingId := plants(PlantFor(temperature, r)));
    }
  }

  /** Tiles already weighted in this wave do not show in the score of the next one. */
  lemma {:induction false} ScoreDuring(e: Env, w: nat, done: set<int>, i: int, n: nat)
    requires done <= e.frontier && n <= 8
    ensures var m := Env(WeightsAfter(e, w, done), e.frontier, GroundAfter(e, w, done), e.first);
            && Score(m, w, i, n) == Score(e, w, i, n)
            && Count(m, w, i, n) == Count(e, w, i, n)
            && Potential(m, w, i, n) == Potential(e, w, i, n)
  {
    hide Counted, Fresh, Term, WeightsAfter, GroundAfter;
    if n > 0 {
      ScoreDuring(e, w, done, i, n - 1);
      NeighbourDuring(e, w, done, i, n - 1);
    }
  }

  lemma NeighbourDuring(e: Env, w: nat, done: set<int>, i: int, k: nat)
    requires done <= e.frontier && k < 8
    ensures var m := Env(WeightsAfter(e, w, done), e.frontier, GroundAfter(e, w, done), e.first);
            && (Counted(m, w, i, k) <==> Counted(e, w, i, k))
            && (Fresh(m, w, i, k) <==> Fresh(e, w, i, k))
            && (Counted(e, w, i, k) ==> Term(m, w, i, k) == Term(e, w, i, k))
  {
    hide Neighbour, Degree, WeightsAfter, GroundAfter;
    TileDuring(e, w, done, Neighbour(w, i, k));
  }

  /** At a tile outside the wave the weight is that from before it, and at every tile the
      temperature, and whether it is water or rock.  */
  lemma TileDuring(e: Env, w: nat, done: set<int>, j: int)
    requires done <= e.frontier
    ensures j !in e.frontier ==>
              && (j in WeightsAfter(e, w, done) <==> j in e.weights)
              && (j in e.weights ==> WeightsAfter(e, w, done)[j] == e.weights[j])
    ensures InMap(e, j) ==>
              && GroundAfter(e, w, done)[j].temperature == e.ground[j].temperature
              && (GroundAfter(e, w, done)[j].terrType == Water <==> e.ground[j].terrType == Water)
              && (GroundAfter(e, w, done)[j].terrType == Rock <==> e.ground[j].terrType == Rock)
  {
    hide Scores;
  }

  /** The body of the loop over the tiles to check, at a tile of the wave that starts in `e`
      when the tiles `done` were looked at.  */
  method CheckTile(world: array<Tile>, w: nat, i: int, weights: map<int, real>, newWave: set<int>,
                   tilesToCheck: set<int>, first: bool, plants: Plant -> ubyte, ghost e: Env, ghost done: set<int>)
    returns (weights': map<int, real>, newWave': set<int>)
    requires EnvOk(e, w) && i in e.frontier && done <= e.frontier
    requires tilesToCheck == e.frontier && first == e.first
    requires weights == WeightsAfter(e, w, done) && Grounds(world[..]) == GroundAfter(e, w, done)
    requires newWave == NextAfter(e, w, done)
    modifies world
    ensures weights' == WeightsAfter(e, w, done + {i}) && Grounds(world[..]) == GroundAfter(e, w, done + {i})
    ensures newWave' == NextAfter(e, w, done + {i})
    ensures Planted(old(world[..]), world[..], plants)
  {
    hide WeightsAfter, GroundAfter, NextAfter, Score, Count, Potential, Counted;
    weights', newWave' := weights, newWave;
    var score, count, potential := ScoreTile(world, w, i, weights, tilesToCheck, first);
    ScoreDuring(e, w, done, i, 8);
    ScoreIsTotal(e, w, i);
    var finalScore := score / count as real;
    TileDuring(e, w, done, i);
    WeightsStep(e, w, done, i);
    NextStep(e, w, done, i);
    GroundStep(e, w, done, i);
    if finalScore > 0.0 {
      weights' := weights[i := finalScore];
      newWave' := newWave + potential;
      var tileType := world[i].terrType;
      if tileType != Water && tileType != Rock {
        MakeFertile(world, i, plants);
      }
    }
    PlantedSame(old(world[..]), plants);
  }

  method MakeFertile(world: array<Tile>, i: nat, plants: Plant -> ubyte)
    requires i < world.Length
    modifies world
    ensures Grounds(world[..]) == Grounds(old(world[..]))[i := Ground(Fertile, old(world[i]).temperature)]
    ensures Planted(old(world[..]), world[..], plants)
  {
    world[i] := world[i].(terrType := Fertile);
    var dice: nat := *;
    var r: nat := *;
    AttemptPlant(world, i, world[i].temperature, plants, dice, r);
    assert PlantFor(world[i].temperature, r) == PlantFor(world[i].temperature, if r % 5 == 0 then 0 else 1);
  }

  lemma PlantedSame(tiles: seq<Tile>, plants: Plant -> ubyte)
    ensures Planted(tiles, tiles, plants)
  {
  }

  lemma PlantedTwice(a: seq<Tile>, b: seq<Tile>, c: seq<Tile>, plants: Plant -> ubyte)
    requires Planted(a, b, plants) && Planted(b, c, plants)
    ensures Planted(a, c, plants)
  {
    forall t | 0 <= t < |a|
      ensures TilePlanted(a[t], c[t], plants)
    {
      assert TilePlanted(a[t], b[t], plants) && TilePlanted(b[t], c[t], plants);
    }
  }

  /** Land turns fertile and may get a plant that grows at its temperature, if nothing was on it;
      nothing else differs.  */
  ghost predicate Planted(before: seq<Tile>, after: seq<Tile>, plants: Plant -> ubyte) {
    |after| == |before| && forall t :: 0 <= t < |before| ==> TilePlanted(before[t], after[t], plants)
  }

  ghost predicate TilePlanted(before: Tile, after: Tile, plants: Plant -> ubyte) {
    && after == before.(terrType := after.terrType, thingId := after.thingId)
    && (after.terrType == before.terrType || after.terrType == Fertile)
    && (after.thingId == before.thingId ||
        (before.thingId == 0 && after.terrType == Fertile &&
         (after.thingId == plants(PlantFor(before.temperature, 0)) || after.thingId == plants(PlantFor(before.temperature, 1)))))
  }

  // ---- What looking at one more tile adds ----------------------------------------------

  lemma WeightsStep(e: Env, w: nat, done: set<int>, i: int)
    ensures WeightsAfter(e, w, done + {i}) ==
            if Scores(e, w, i) then WeightsAfter(e, w, done)[i := FinalScore(e, w, i)] else WeightsAfter(e, w, done)
  {
  }

  lemma NextStep(e: Env, w: nat, done: set<int>, i: int)
    ensures NextAfter(e, w, done + {i}) == NextAfter(e, w, done) + if Scores(e, w, i) then Potential(e, w, i, 8) else {}
  {
    var more, r := NextAfter(e, w, done + {i}), NextAfter(e, w, done) + if Scores(e, w, i) then Potential(e, w, i, 8) else {};
    forall j | j in more
      ensures j in r
    {
      var t :| t in done + {i} && Scores(e, w, t) && j in Potential(e, w, t, 8);
    }
    forall j | j in r
      ensures j in more
    {
      if j in NextAfter(e, w, done) {
        var t :| t in done && Scores(e, w, t) && j in Potential(e, w, t, 8);
        assert t in done + {i};
      } else {
        assert i in done + {i};
      }
    }
  }

  lemma GroundStep(e: Env, w: nat, done: set<int>, i: int)
    requires InMap(e, i)
    ensures GroundAfter(e, w, done + {i}) ==
            if Scores(e, w, i) && !e.ground[i].terrType.Water? && !e.ground[i].terrType.Rock?
            then GroundAfter(e, w, done)[i := e.ground[i].(terrType := Fertile)] else GroundAfter(e, w, done)
  {
  }

  // ---- The whole stage -----------------------------------------------------------------

  /** Cell `k` of the 3 by 3 square around tile `i`, row by row. */
  ghost function Cell(w: nat, i: int, k: nat): int {
    var row := k / 3;
    i + k % 3 - 1 + (if row == 0 then -(w as int) else if row == 1 then 0 else w)
  }

  /** The land among the `n` cells from cell `k` on. */
  ghost function LandAround(tiles: seq<Tile>, w: nat, i: int, k: nat, n: nat): set<int> {
    if n == 0 then {} else LandAround(tiles, w, i, k, n - 1) + LandAt(tiles, Cell(w, i, k + n - 1))
  }

  ghost function LandAt(tiles: seq<Tile>, j: int): set<int> {
    if 0 <= j < |tiles| && tiles[j].terrType != Water then {j} else {}
  }

  lemma {:induction false} LandRows(tiles: seq<Tile>, w: nat, i: int, k: nat, n: nat)
    ensures LandAround(tiles, w, i, 0, k + n) == LandAround(tiles, w, i, 0, k) + LandAround(tiles, w, i, k, n)
  {
    if n > 0 {
      LandRows(tiles, w, i, k, n - 1);
    }
  }

  lemma NoLandYet(tiles: seq<Tile>, w: nat, i: int, k: nat)
    ensures LandAround(tiles, w, i, k, 0) == {}
  {
  }

  lemma RowCell(w: nat, x: int, y: int, row: nat)
    requires row < 3
    ensures Index(w, Node(x - 1, y - 1 + row)) == Cell(w, Index(w, Node(x, y)), 3 * row)
  {
  }

  lemma CellInRow(w: nat, i: int, row: nat, column: nat)
    requires row < 3 && column < 3
    ensures Cell(w, i, 3 * row + column) == Cell(w, i, 3 * row) + column
  {
  }

  lemma NeighbourIsCell(w: nat, i: int, k: nat) returns (cell: nat)
    requires k < 8
    ensures cell < 9 && Cell(w, i, cell) == Neighbour(w, i, k)
  {
    cell := if k == 0 then 1 else if k == 1 then 2 else if k == 2 then 5 else if k == 3 then 8
            else if k == 4 then 7 else if k == 5 then 6 else if k == 6 then 3 else 0;
  }

  lemma CellIsNeighbour(w: nat, i: int, cell: nat)
    requires cell < 9 && Cell(w, i, cell) != i
    ensures Beside(w, i, Cell(w, i, cell))
  {
    var k: nat := if cell == 0 then 7 else if cell == 1 then 0 else if cell == 2 then 1 else if cell == 3 then 6
                  else if cell == 5 then 2 else if cell == 6 then 5 else if cell == 7 then 4 else 3;
    assert Neighbour(w, i, k) == Cell(w, i, cell);
  }

  /** The square without its middle is the eight neighbours. */
  lemma LandAroundIs(tiles: seq<Tile>, w: nat, i: int, j: int)
    requires 0 <= i < |tiles| && tiles[i].terrType == Water
    ensures j in LandAround(tiles, w, i, 0, 9) <==> 0 <= j < |tiles| && tiles[j].terrType != Water && Beside(w, i, j)
  {
    LandCells(tiles, w, i, 9, j);
    if Beside(w, i, j) {
      var k: nat :| k < 8 && Neighbour(w, i, k) == j;
      var cell := NeighbourIsCell(w, i, k);
    }
    if j in LandAround(tiles, w, i, 0, 9) {
      var k: nat :| k < 9 && Cell(w, i, k) == j;
      CellIsNeighbour(w, i, k);
    }
  }

  lemma {:induction false} LandCells(tiles: seq<Tile>, w: nat, i: int, n: nat, j: int)
    ensures j in LandAround(tiles, w, i, 0, n) <==>
            0 <= j < |tiles| && tiles[j].terrType != Water && exists k: nat :: k < n && Cell(w, i, k) == j
  {
    if n > 0 {
      LandCells(tiles, w, i, n - 1, j);
    }
  }

  /** The entry of tile `i` is set to `weight`, or not yet. */
  ghost predicate MaybeSet(before: map<int, real>, after: map<int, real>, i: int, weight: real, done: bool) {
    after == before[i := weight] || (!done && after == before)
  }

  lemma MaybeSetOnce(before: map<int, real>, after: map<int, real>, i: int, weight: real)
    ensures MaybeSet(before, before, i, weight, false)
    ensures MaybeSet(before, after, i, weight, true) ==> after == before[i := weight]
  {
  }

  lemma MaybeSetTwice(a: map<int, real>, b: map<int, real>, c: map<int, real>, i: int, weight: real, done: bool, now: bool)
    requires MaybeSet(a, b, i, weight, done) && MaybeSet(b, c, i, weight, now)
    ensures MaybeSet(a, c, i, weight, done || now)
  {
  }

  /** Weights one water tile and collects the land around it. */
  method WeighWater(world: array<Tile>, w: nat, x: int, y: int, sizes: map<int, int>,
                    weights: map<int, real>, tilesToCheck: set<int>)
    returns (weights': map<int, real>, tilesToCheck': set<int>)
    requires Sized(Grounds(world[..]), sizes)
    requires WaterTile(Grounds(world[..]), Index(w, Node(x, y)))
    ensures weights' == weights[Index(w, Node(x, y)) := sizes[Index(w, Node(x, y))] as real * 0.1]
    ensures tilesToCheck' == tilesToCheck + LandAround(world[..], w, Index(w, Node(x, y)), 0, 9)
  {
    var tileIndex := x + y * w;
    var weight := sizes[tileIndex] as real * 0.1;
    weights', tilesToCheck' := WeighSquare(world, w, x, y, tileIndex, weight, weights[tileIndex := 0.0], tilesToCheck);
  }

  /** The two loops over the square around the tile; its middle sets the weight. */
  method WeighSquare(world: array<Tile>, w: nat, x: int, y: int, tileIndex: int, weight: real,
                     weights: map<int, real>, tilesToCheck: set<int>)
    returns (weights': map<int, real>, tilesToCheck': set<int>)
    requires tileIndex == Index(w, Node(x, y)) && 0 <= tileIndex < world.Length && world[tileIndex].terrType == Water
    ensures weights' == weights[tileIndex := weight]
    ensures tilesToCheck' == tilesToCheck + LandAround(world[..], w, tileIndex, 0, 9)
  {
    ghost var tiles := world[..];
    NoLandYet(tiles, w, tileIndex, 0);
    hide LandAround, Cell, Index, MaybeSet;
    weights', tilesToCheck' := weights, tilesToCheck;
    MaybeSetOnce(weights, weights, tileIndex, weight);
    for row := 0 to 3
      invariant MaybeSet(weights, weights', tileIndex, weight, row > 1)
      invariant tilesToCheck' == tilesToCheck + LandAround(tiles, w, tileIndex, 0, 3 * row)
    {
      RowCell(w, x, y, row);
      LandRows(tiles, w, tileIndex, 3 * row, 3);
      ghost var before := weights';
      weights', tilesToCheck' := WeighRow(world, w, x, y - 1 + row, tileIndex, row, weight, weights', tilesToCheck');
      MaybeSetTwice(weights, before, weights', tileIndex, weight, row > 1, row == 1);
    }
    MaybeSetOnce(weights, weights', tileIndex, weight);
  }

  /** The inner of them, over the three tiles of a row. */
  method WeighRow(world: array<Tile>, w: nat, x: int, y2: int, tileIndex: int, ghost row: nat, weight: real,
                  weights: map<int, real>, tilesToCheck: set<int>)
    returns (weights': map<int, real>, tilesToCheck': set<int>)
    requires 0 <= tileIndex < world.Length && world[tileIndex].terrType == Water
    requires row < 3 && Index(w, Node(x - 1, y2)) == Cell(w, tileIndex, 3 * row)
    ensures MaybeSet(weights, weights', tileIndex, weight, row == 1)
    ensures tilesToCheck' == tilesToCheck + LandAround(world[..], w, tileIndex, 3 * row, 3)
  {
    hide Cell, LandAt;
    weights', tilesToCheck' := weights, tilesToCheck;
    for column := 0 to 3
      invariant MaybeSet(weights, weights', tileIndex, weight, row == 1 && column > 1)
      invariant tilesToCheck' == tilesToCheck + LandAround(world[..], w, tileIndex, 3 * row, column)
    {
      var x2 := x - 1 + column;
      CellInRow(w, tileIndex, row, column);
      weights', tilesToCheck' := LookAtCell(world, w, tileIndex, x2 + y2 * w, 3 * row + column, weight, weights', tilesToCheck');
    }
  }

  /** The body of the two loops, at cell `k`. */
  method LookAtCell(world: array<Tile>, w: nat, tileIndex: int, adjacentIndex: int, ghost k: nat, weight: real,
                    weights: map<int, real>, tilesToCheck: set<int>)
    returns (weights': map<int, real>, tilesToCheck': set<int>)
    requires 0 <= tileIndex < world.Length && world[tileIndex].terrType == Water
    requires adjacentIndex == Cell(w, tileIndex, k) && k < 9
    ensures MaybeSet(weights, weights', tileIndex, weight, k == 4)
    ensures tilesToCheck' == tilesToCheck + LandAt(world[..], adjacentIndex)
  {
    weights', tilesToCheck' := weights, tilesToCheck;
    if 0 <= adjacentIndex < world.Length {
      if world[adjacentIndex].terrType == Water {
        weights' := weights'[tileIndex := weight];
      } else {
        tilesToCheck' := tilesToCheck' + {adjacentIndex};
      }
    }
  }

  lemma WaterWeightsStep(ground: seq<Ground>, sizes: map<int, int>, n: nat)
    requires Sized(ground, sizes) && n < |ground|
    ensures WaterWeights(ground, sizes, n + 1) ==
            if WaterTile(ground, n) then WaterWeights(ground, sizes, n)[n := sizes[n] as real * 0.1]
            else WaterWeights(ground, sizes, n)
  {
  }

  lemma ShoresStep(ground: seq<Ground>, w: nat, n: nat, j: int)
    requires n < |ground|
    ensures j in Shores(ground, w, n + 1) <==>
            || j in Shores(ground, w, n)
            || (WaterTile(ground, n) && 0 <= j < |ground| && ground[j].terrType != Water && Beside(w, n, j))
  {
  }

  /** What holds of the two loops over the map when the tiles below index `n` are done. */
  ghost predicate WeighedUpto(tiles: seq<Tile>, w: nat, sizes: map<int, int>, n: nat, weights: map<int, real>, tilesToCheck: set<int>) {
    && n <= |tiles| && Sized(Grounds(tiles), sizes)
    && weights == WaterWeights(Grounds(tiles), sizes, n)
    && tilesToCheck == Shores(Grounds(tiles), w, n)
  }

  lemma WeighedOneMore(tiles: seq<Tile>, w: nat, sizes: map<int, int>, n: nat, weights: map<int, real>, tilesToCheck: set<int>,
                       weights': map<int, real>, tilesToCheck': set<int>)
    requires WeighedUpto(tiles, w, sizes, n, weights, tilesToCheck) && n < |tiles|
    requires weights' == if tiles[n].terrType == Water then weights[n := sizes[n] as real * 0.1] else weights
    requires tilesToCheck' == if tiles[n].terrType == Water then tilesToCheck + LandAround(tiles, w, n, 0, 9) else tilesToCheck
    ensures WeighedUpto(tiles, w, sizes, n + 1, weights', tilesToCheck')
  {
    WaterWeightsStep(Grounds(tiles), sizes, n);
    forall j
      ensures j in tilesToCheck' <==> j in Shores(Grounds(tiles), w, n + 1)
    {
      ShoresStep(Grounds(tiles), w, n, j);
      if tiles[n].terrType == Water {
        LandAroundIs(tiles, w, n, j);
      }
    }
  }

  /** One row of the map, which starts at index `row`. */
  method WeighMapRow(world: array<Tile>, w: nat, y: nat, ghost row: nat, sizes: map<int, int>, weights: map<int, real>, tilesToCheck: set<int>)
    returns (weights': map<int, real>, tilesToCheck': set<int>)
    requires row == RowStart(w, y) && row + w <= world.Length && WeighedUpto(world[..], w, sizes, row, weights, tilesToCheck)
    ensures WeighedUpto(world[..], w, sizes, row + w, weights', tilesToCheck')
  {
    hide WeighedUpto;
    weights', tilesToCheck' := weights, tilesToCheck;
    for x := 0 to w
      invariant WeighedUpto(world[..], w, sizes, row + x, weights', tilesToCheck')
    {
      weights', tilesToCheck' := WeighMapTile(world, w, x, y, row + x, sizes, weights', tilesToCheck');
    }
  }

  method WeighMapTile(world: array<Tile>, w: nat, x: nat, y: nat, ghost tileIndex: nat, sizes: map<int, int>,
                      weights: map<int, real>, tilesToCheck: set<int>)
    returns (weights': map<int, real>, tilesToCheck': set<int>)
    requires tileIndex == Index(w, Node(x, y)) && tileIndex < world.Length
    requires WeighedUpto(world[..], w, sizes, tileIndex, weights, tilesToCheck)
    ensures WeighedUpto(world[..], w, sizes, tileIndex + 1, weights', tilesToCheck')
  {
    hide LandAround, WaterWeights, Shores;
    weights', tilesToCheck' := weights, tilesToCheck;
    if world[x + y * w].terrType == Water {
      assert WaterTile(Grounds(world[..]), tileIndex);
      weights', tilesToCheck' := WeighWater(world, w, x, y, sizes, weights', tilesToCheck');
    }
    WeighedOneMore(world[..], w, sizes, tileIndex, weights, tilesToCheck, weights', tilesToCheck');
  }

  lemma WeighedNone(tiles: seq<Tile>, w: nat, sizes: map<int, int>)
    requires Sized(Grounds(tiles), sizes)
    ensures WeighedUpto(tiles, w, sizes, 0, map[], {})
  {
  }

  lemma WeighedAll(tiles: seq<Tile>, w: nat, sizes: map<int, int>, weights: map<int, real>, tilesToCheck: set<int>)
    requires WeighedUpto(tiles, w, sizes, |tiles|, weights, tilesToCheck)
    ensures Env(weights, tilesToCheck, Grounds(tiles), true) == Initial(Grounds(tiles), w, sizes)
  {
  }

  method InitialWeights(world: array<Tile>, w: nat, sizes: map<int, int>) returns (weights: map<int, real>, tilesToCheck: set<int>)
    requires world.Length == w * w && Sized(Grounds(world[..]), sizes)
    ensures Env(weights, tilesToCheck, Grounds(world[..]), true) == Initial(Grounds(world[..]), w, sizes)
  {
    weights, tilesToCheck := map[], {};
    ghost var row: nat := 0;
    WeighedNone(world[..], w, sizes);
    hide *;
    RowStarts(w, 0);
    for y := 0 to w
      invariant row == RowStart(w, y) && WeighedUpto(world[..], w, sizes, row, weights, tilesToCheck)
    {
      RowStarts(w, y);
      weights, tilesToCheck := WeighMapRow(world, w, y, row, sizes, weights, tilesToCheck);
      row := row + w;
    }
    WeighedAll(world[..], w, sizes, weights, tilesToCheck);
  }

  /** One wave, whatever the order in which its tiles come. */
  method RunWave(world: array<Tile>, w: nat, weights: map<int, real>, tilesToCheck: set<int>, first: bool, plants: Plant -> ubyte)
    returns (weights': map<int, real>, newWave: set<int>)
    requires EnvOk(Env(weights, tilesToCheck, Grounds(world[..]), first), w)
    modifies world
    ensures Env(weights', newWave, Grounds(world[..]), false) == Wave(Env(weights, tilesToCheck, Grounds(old(world[..])), first), w)
    ensures Planted(old(world[..]), world[..], plants)
  {
    ghost var e := Env(weights, tilesToCheck, Grounds(world[..]), first);
    weights', newWave := weights, {};
    var rest := tilesToCheck;
    PlantedSame(world[..], plants);
    hide Planted;
    assert GroundAfter(e, w, {}) == e.ground;
    while rest != {}
      invariant rest <= tilesToCheck
      invariant weights' == WeightsAfter(e, w, tilesToCheck - rest) && newWave == NextAfter(e, w, tilesToCheck - rest)
      invariant Grounds(world[..]) == GroundAfter(e, w, tilesToCheck - rest)
      invariant Planted(old(world[..]), world[..], plants)
      decreases |rest|
    {
      var i := Pick(rest);
      assert tilesToCheck - (rest - {i}) == (tilesToCheck - rest) + {i};
      ghost var before := world[..];
      weights', newWave := CheckTile(world, w, i, weights', newWave, tilesToCheck, first, plants, e, tilesToCheck - rest);
      PlantedTwice(old(world[..]), before, world[..], plants);
      rest := rest - {i};
    }
    assert tilesToCheck - rest == tilesToCheck;
  }

  /** The stage: the weights and the terrain are those of all the waves from the first frontier,
      and nothing else changes but for things planted on free tiles.  */
  method GenerateEnvironment(world: array<Tile>, w: nat, sizes: map<int, int>, plants: Plant -> ubyte) returns (weights: map<int, real>)
    requires world.Length == w * w && Sized(Grounds(world[..]), sizes)
    modifies world
    ensures var e := Initial(Grounds(old(world[..])), w, sizes);
            EnvOk(e, w) && weights == Waves(e, w).weights && Grounds(world[..]) == Waves(e, w).ground
    ensures Planted(old(world[..]), world[..], plants)
  {
    ghost var e0 := Initial(Grounds(world[..]), w, sizes);
    InitialOk(Grounds(world[..]), w, sizes, LargestPool(sizes));
    var tilesToCheck;
    weights, tilesToCheck := InitialWeights(world, w, sizes);
    var first := true;
    PlantedSame(world[..], plants);
    hide Planted;
    while tilesToCheck != {}
      invariant var e := Env(weights, tilesToCheck, Grounds(world[..]), first);
                EnvOk(e, w) && Waves(e, w) == Waves(e0, w)
      invariant Planted(old(world[..]), world[..], plants)
      decreases Unweighted(Env(weights, tilesToCheck, Grounds(world[..]), first)), |tilesToCheck|
    {
      ghost var e := Env(weights, tilesToCheck, Grounds(world[..]), first);
      WaveKeepsOk(e, w);
      WaveProgress(e, w);
      var newWave;
      ghost var before := world[..];
      weights, newWave := RunWave(world, w, weights, tilesToCheck, first, plants);
      PlantedTwice(old(world[..]), before, world[..], plants);
      WaveLeavesAll(e, w);
      var toRemoveIndices := tilesToCheck;
      tilesToCheck := tilesToCheck + newWave;
      tilesToCheck := tilesToCheck - toRemoveIndices;
      assert tilesToCheck == newWave;
      first := false;
    }
  }

  lemma WaveLeavesAll(e: Env, w: nat)
    requires EnvOk(e, w)
    ensures e.frontier !! Wave(e, w).frontier
  {
    forall i | i in e.frontier
      ensures i !in Wave(e, w).frontier
    {
      WaveLeaves(e, w, i);
    }
  }

  /** The size of the largest pool. */
  ghost function LargestPool(sizes: map<int, int>): (r: int)
    ensures forall i :: i in sizes ==> sizes[i] <= r
    ensures sizes != map[] ==> exists i :: i in sizes && sizes[i] == r
  {
    if sizes == map[] then 0
    else
      var negated := set i | i in sizes :: -sizes[i];
      NotEmpty(sizes);
      assert forall j :: j in sizes ==> -sizes[j] in negated;
      -MinOf(negated)
  }

  lemma NotEmpty(sizes: map<int, int>)
    requires sizes != map[]
    ensures |set i | i in sizes :: -sizes[i]| > 0
  {
    assert sizes.Keys != {};
    var i := Member(sizes.Keys);
    var negated := set i | i in sizes :: -sizes[i];
    assert -sizes[i] in negated;
  }
}
