/** The marks that the stages of the generator leave on the finished map. */
module WorldStages {
  import opened Grid
  import opened Tiles
  import opened ElevationGenerator
  import opened RampGenerator
  import opened CliffGenerator
  import opened CliffTiles
  import opened TemperatureGenerator
  import opened WaterPools
  import opened Flooding
  import opened EnvironmentGenerator
  import F = Fertility
  import R = FertilityReach

  // ---- Water ---------------------------------------------------------------------------

  /** The map after the water stage: the heights `h` flooded from the starts, water on the wet
      tiles and dirt elsewhere.  */
  ghost predicate FloodedLand(flooded: seq<Tile>, h: seq<int>, w: nat, starts: set<int>)
    requires Terrain(h, w)
  {
    && Elevations(flooded) == Flooded(h, w, starts)
    && forall t :: 0 <= t < |flooded| ==> flooded[t].terrType == if Wet(h, w, starts, t) then Water else Dirt
  }

  // ---- Cliffs --------------------------------------------------------------------------

  /** The cliff found at cell `k` of tile `i` is the last one found at tile `t`. */
  ghost predicate LastTurn(tiles: seq<Tile>, w: nat, i: nat, k: nat, rand: nat -> nat, t: int)
    requires IsMap(tiles, w) && w > 0
  {
    && i < |tiles| && k < 9 && Turns(tiles, w, i, k, 4, rand, t)
    && (forall c: nat :: k < c < 9 ==> !Turns(tiles, w, i, c, 4, rand, t))
    && forall j: nat, c: nat :: i < j < |tiles| && c < 9 ==> !Turns(tiles, w, j, c, 4, rand, t)
  }

  ghost predicate NoTurn(tiles: seq<Tile>, w: nat, rand: nat -> nat, t: int)
    requires IsMap(tiles, w) && w > 0
  {
    forall i: nat, k: nat :: i < |tiles| && k < 9 ==> !Turns(tiles, w, i, k, 4, rand, t)
  }

  /** Tile `t` is rock exactly if the last cliff found at it got no ramp. */
  ghost predicate RockByLast(flooded: seq<Tile>, w: nat, rand: nat -> nat, t: int, rock: bool)
    requires IsMap(flooded, w) && w > 0
  {
    && (NoTurn(flooded, w, rand, t) ==> !rock)
    && forall i: nat, k: nat :: LastTurn(flooded, w, i, k, rand, t) ==> (rock <==> rand(Seen(flooded, w, i, k, 4, rand).drawn) % 20 != 1)
  }

  /** What the cliff stage leaves on the map: for every stream of random numbers, and in full if
      no roll asks for a ramp.  */
  ghost predicate Cliffs(flooded: seq<Tile>, after: seq<Tile>, w: nat, rand: nat -> nat)
    requires IsMap(flooded, w) && w > 0
  {
    && |after| == |flooded|
    && Elevations(after) == Elevations(CarvedFirst(flooded, w, |flooded|, 4, rand).tiles)
    && (forall t :: 0 <= t < |after| ==> RockByLast(flooded, w, rand, t, after[t].terrType == Rock))
    && (NeverRamps(rand) ==> forall t :: 0 <= t < |after| ==>
          after[t].elevation == flooded[t].elevation && (after[t].terrType == Rock <==> AtCliff(flooded, w, 4, t)))
  }

  lemma CarvedLeaves(flooded: seq<Tile>, w: nat, rand: nat -> nat)
    requires IsMap(flooded, w) && w > 0 && forall t :: 0 <= t < |flooded| ==> flooded[t].terrType != Rock
    ensures Cliffs(flooded, CarvedFirst(flooded, w, |flooded|, 4, rand).tiles, w, rand)
  {
    hide CarvedFirst, NeverRamps, AtCliff, IsMap, RockByLast;
    var after := CarvedFirst(flooded, w, |flooded|, 4, rand).tiles;
    SameMapSize(flooded, after, w);
    forall t: nat | t < |after|
      ensures RockByLast(flooded, w, rand, t, after[t].terrType == Rock)
    {
      RockLast(flooded, w, rand, t);
    }
    if NeverRamps(rand) {
      forall t: nat | t < |after|
        ensures after[t].elevation == flooded[t].elevation && (after[t].terrType == Rock <==> AtCliff(flooded, w, 4, t))
      {
        RockOnCliffs(flooded, w, |flooded|, 4, rand);
        OnCliffIs(flooded, w, 4, t);
      }
    }
  }

  lemma RockLast(flooded: seq<Tile>, w: nat, rand: nat -> nat, t: nat)
    requires IsMap(flooded, w) && w > 0 && t < |flooded| && flooded[t].terrType != Rock
    requires |CarvedFirst(flooded, w, |flooded|, 4, rand).tiles| == |flooded|
    ensures RockByLast(flooded, w, rand, t, CarvedFirst(flooded, w, |flooded|, 4, rand).tiles[t].terrType == Rock)
  {
    NothingCarved(flooded, w, 4, rand);
    hide CarvedFirst, Seen, Turns, IsMap;
    var rock := CarvedFirst(flooded, w, |flooded|, 4, rand).tiles[t].terrType == Rock;
    if NoTurn(flooded, w, rand, t) {
      NoTurnKeeps(flooded, w, 0, |flooded|, 4, rand, t);
    }
    forall i: nat, k: nat | LastTurn(flooded, w, i, k, rand, t)
      ensures rock <==> rand(Seen(flooded, w, i, k, 4, rand).drawn) % 20 != 1
    {
      LastCliffDecides(flooded, w, i, k, 4, rand, t);
    }
  }

  /** The marks of the cliffs are kept where elevations and rock are. */
  lemma CliffsKept(flooded: seq<Tile>, before: seq<Tile>, after: seq<Tile>, w: nat, rand: nat -> nat)
    requires IsMap(flooded, w) && w > 0 && Cliffs(flooded, before, w, rand) && SameRock(before, after)
    ensures Cliffs(flooded, after, w, rand)
  {
    hide CarvedFirst, NeverRamps, AtCliff, IsMap, RockByLast;
    assert Elevations(after) == Elevations(before);
  }

  ghost predicate SameRock(before: seq<Tile>, after: seq<Tile>) {
    && |after| == |before|
    && forall t :: 0 <= t < |before| ==>
         after[t].elevation == before[t].elevation && (after[t].terrType == Rock <==> before[t].terrType == Rock)
  }

  // ---- Temperature ---------------------------------------------------------------------

  /** Tile `t` of the map after the cliff stage turned to dunes. */
  ghost predicate Dry(carved: seq<Tile>, w: nat, equatorYPos: int, t: nat)
    requires w > 0 && t < |carved|
  {
    var p := At(w, t);
    && RowTemperature(p.y, equatorYPos, carved[t].elevation) == Burning && carved[t].terrType != Rock
    && WaterAround(TemperedFirst(carved, w, equatorYPos, t), w, p.x, p.y, 36) < 3
  }

  /** Every tile has the temperature of its row and its height, and the type it had, or dunes
      where it is dry, unless it was weighted since: then land other than rock is fertile.  */
  ghost predicate Climate(carved: seq<Tile>, after: seq<Tile>, w: nat, equatorYPos: int, weights: map<int, real>)
    requires w > 0
  {
    && |after| == |carved|
    && forall t :: 0 <= t < |after| ==>
         && after[t].temperature == RowTemperature(At(w, t).y, equatorYPos, after[t].elevation)
         && var dried := if Dry(carved, w, equatorYPos, t) then Dunes else carved[t].terrType;
            after[t].terrType == if t in weights && dried != Water && dried != Rock then Fertile else dried
  }

  lemma TemperedLeaves(carved: seq<Tile>, w: nat, equatorYPos: int)
    requires w > 0 && |carved| == w * w && forall t :: 0 <= t < |carved| ==> carved[t].terrType != Dunes
    ensures SameRock(carved, TemperedFirst(carved, w, equatorYPos, |carved|))
    ensures Climate(carved, TemperedFirst(carved, w, equatorYPos, |carved|), w, equatorYPos, map[])
  {
    hide TemperedFirst, RowTemperature, WaterAround;
    var after := TemperedFirst(carved, w, equatorYPos, |carved|);
    forall t: nat | t < |carved|
      ensures after[t].elevation == carved[t].elevation && after[t].temperature == RowTemperature(At(w, t).y, equatorYPos, after[t].elevation)
      ensures after[t].terrType == if Dry(carved, w, equatorYPos, t) then Dunes else carved[t].terrType
    {
      DunesExactly(carved, w, equatorYPos, t);
    }
  }

  // ---- The environment -----------------------------------------------------------------

  lemma EnvironmentLeaves(carved: seq<Tile>, tempered: seq<Tile>, after: seq<Tile>, w: nat, equatorYPos: int, sizes: map<int, int>,
                          weights: map<int, real>, plants: Plant -> ubyte)
    requires w > 0 && Sized(F.Grounds(tempered), sizes) && Climate(carved, tempered, w, equatorYPos, map[])
    requires var e := Initial(F.Grounds(tempered), w, sizes);
             F.EnvOk(e, w) && weights == F.Waves(e, w).weights && F.Grounds(after) == F.Waves(e, w).ground
    requires Planted(tempered, after, plants)
    ensures SameRock(tempered, after) && Climate(carved, after, w, equatorYPos, weights)
  {
    hide F.Waves, RowTemperature, Dry, Climate, Initial;
    var e := Initial(F.Grounds(tempered), w, sizes);
    InitialOk(F.Grounds(tempered), w, sizes, LargestPool(sizes));
    R.WavesReach(e, w, LargestPool(sizes) as real * 0.1);
    forall t: nat | t < |tempered|
      ensures TileGrown(tempered[t], after[t], t in weights)
    {
      assert TilePlanted(tempered[t], after[t], plants);
      TypeAfterWaves(tempered, after, w, sizes, weights, t);
    }
    StillClimate(carved, tempered, after, w, equatorYPos, weights);
  }

  /** Land other than rock is fertile if it is weighted; elevation and temperature are kept. */
  ghost predicate TileGrown(before: Tile, after: Tile, weighted: bool) {
    && after.elevation == before.elevation && after.temperature == before.temperature
    && after.terrType == if weighted && before.terrType != Water && before.terrType != Rock then Fertile else before.terrType
  }

  lemma StillClimate(carved: seq<Tile>, tempered: seq<Tile>, after: seq<Tile>, w: nat, equatorYPos: int, weights: map<int, real>)
    requires w > 0 && Climate(carved, tempered, w, equatorYPos, map[])
    requires |after| == |tempered| && forall t :: 0 <= t < |tempered| ==> TileGrown(tempered[t], after[t], t in weights)
    ensures SameRock(tempered, after) && Climate(carved, after, w, equatorYPos, weights)
  {
    hide RowTemperature, Dry;
  }

  lemma TypeAfterWaves(tempered: seq<Tile>, after: seq<Tile>, w: nat, sizes: map<int, int>, weights: map<int, real>, t: nat)
    requires Sized(F.Grounds(tempered), sizes) && t < |tempered| == |after|
    requires var e := Initial(F.Grounds(tempered), w, sizes);
             F.EnvOk(e, w) && weights == F.Waves(e, w).weights && F.Grounds(after) == F.Waves(e, w).ground
             && R.Grown(e, F.Waves(e, w))
    ensures after[t].terrType == if t in weights && tempered[t].terrType != Water && tempered[t].terrType != Rock then Fertile else tempered[t].terrType
  {
    hide F.Waves;
    var e := Initial(F.Grounds(tempered), w, sizes);
    var r := F.Waves(e, w);
    assert t in e.weights <==> WaterTile(e.ground, t);
    assert F.Grounds(after)[t].terrType == after[t].terrType && F.Grounds(tempered)[t].terrType == tempered[t].terrType;
  }

  /** All that stands on the finished map are plants on fertile tiles, each at its temperature. */
  ghost predicate OnlyPlants(after: seq<Tile>, plants: Plant -> ubyte) {
    forall t :: 0 <= t < |after| && after[t].thingId != 0 ==>
      && after[t].terrType == Fertile
      && (after[t].thingId == plants(PlantFor(after[t].temperature, 0)) || after[t].thingId == plants(PlantFor(after[t].temperature, 1)))
  }
}
