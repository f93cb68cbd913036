/** All stages in order, from the zeroed map. */
module WorldGenerator {
  import opened Grid
  import opened Tiles
  import Noise
  import opened ElevationGenerator
  import opened RampGenerator
  import opened CliffGenerator
  import opened TemperatureGenerator
  import opened WaterPools
  import opened Flooding
  import opened WaterGenerator
  import opened WaterProperties
  import F = Fertility
  import R = FertilityReach
  import opened EnvironmentGenerator
  import opened WorldStages

  const CLIFF_THRESHOLD := 4

  /** The tiles from which no stage has made anything yet. */
  ghost predicate Zeroed(tiles: seq<Tile>) {
    forall t :: 0 <= t < |tiles| ==> tiles[t].terrType == Dirt && tiles[t].elevation == 0 && tiles[t].thingId == 0
  }

  /** No fertile land yet, and each water tile with its pool size: what the stages between the
      water and the environment keep.  */
  ghost predicate Watered(tiles: seq<Tile>, sizes: map<int, int>) {
    && Sized(F.Grounds(tiles), sizes)
    && ElevationsAtMost(tiles, MAX_HEIGHT)
    && forall t :: 0 <= t < |tiles| ==> tiles[t].terrType != Fertile && tiles[t].thingId == 0
  }

  lemma FloodedIsWatered(before: seq<Tile>, after: seq<Tile>, w: nat, starts: set<int>)
    requires Square(Elevations(before), w) && IsFlooded(before, after, w, starts)
    requires ElevationsAtMost(before, MAX_HEIGHT)
    requires forall t :: 0 <= t < |before| ==> before[t].terrType == Dirt && before[t].thingId == 0
    ensures Watered(after, PoolSizes(Elevations(before), w, starts))
  {
    var h, sizes := Elevations(before), PoolSizes(Elevations(before), w, starts);
    forall t | 0 <= t < |after|
      ensures after[t].elevation <= MAX_HEIGHT
      ensures after[t].terrType == Water ==> t in sizes && sizes[t] >= 1
    {
      FloodedBounded(h, w, starts, MAX_HEIGHT, t);
      assert after[t].elevation == FloodedAt(h, w, starts, t);
      SizesAreComponentSizes(before, after, w, starts, t);
    }
  }

  lemma CarvedIsWatered(before: seq<Tile>, w: nat, rand: nat -> nat, sizes: map<int, int>)
    requires Watered(before, sizes) && IsMap(before, w) && w > 0
    ensures Watered(CarvedFirst(before, w, |before|, CLIFF_THRESHOLD, rand).tiles, sizes)
  {
    hide CarvedFirst, IsMap;
    CarvedKeeps(before, w, |before|, CLIFF_THRESHOLD, rand, MAX_HEIGHT);
  }

  lemma TemperedIsWatered(before: seq<Tile>, w: nat, equatorYPos: int, sizes: map<int, int>)
    requires Watered(before, sizes) && |before| == w * w && w > 0
    ensures Watered(TemperedFirst(before, w, equatorYPos, |before|), sizes)
  {
    hide TemperedFirst;
    var after := TemperedFirst(before, w, equatorYPos, |before|);
    forall t: nat | t < |after|
      ensures after[t] == before[t].(temperature := after[t].temperature, terrType := after[t].terrType)
      ensures after[t].terrType == before[t].terrType || after[t].terrType == Dunes
    {
      DunesExactly(before, w, equatorYPos, t);
    }
    forall t | WaterTile(F.Grounds(after), t)
      ensures WaterTile(F.Grounds(before), t)
    {
    }
  }

  /** What the environment stage makes of a watered map. */
  ghost predicate Greened(after: seq<Tile>, w: nat, sizes: map<int, int>, weights: map<int, real>) {
    && (forall t :: 0 <= t < |after| ==>
          (after[t].terrType == Fertile <==> t in weights && after[t].terrType != Water && after[t].terrType != Rock))
    && (forall t :: 0 <= t < |after| && after[t].terrType == Water ==> t in sizes && t in weights)
    && (forall t :: t in weights ==>
          0.0 < weights[t] <= LargestPool(sizes) as real * 0.1
          && R.NearWater(F.Grounds(after), w, t, LargestPool(sizes) as real * 0.1))
  }

  lemma EnvironmentGrows(before: seq<Tile>, after: seq<Tile>, w: nat, sizes: map<int, int>, weights: map<int, real>)
    requires Watered(before, sizes)
    requires var e := Initial(F.Grounds(before), w, sizes);
             F.EnvOk(e, w) && weights == F.Waves(e, w).weights && F.Grounds(after) == F.Waves(e, w).ground
    ensures Greened(after, w, sizes, weights)
  {
    var e, top := Initial(F.Grounds(before), w, sizes), LargestPool(sizes) as real * 0.1;
    InitialOk(F.Grounds(before), w, sizes, LargestPool(sizes));
    R.WavesReach(e, w, top);
    GreenedFrom(before, after, w, sizes, e, F.Waves(e, w), top);
  }

  lemma GreenedFrom(before: seq<Tile>, after: seq<Tile>, w: nat, sizes: map<int, int>, e: F.Env, r: F.Env, top: real)
    requires Watered(before, sizes) && top == LargestPool(sizes) as real * 0.1
    requires e == Initial(F.Grounds(before), w, sizes) && F.Grounds(after) == r.ground
    requires R.Grown(e, r) && R.SameWater(e.ground, r.ground)
    requires forall i :: i in r.weights ==> 0.0 < r.weights[i] <= top && R.NearWater(e.ground, w, i, top)
    ensures Greened(after, w, sizes, r.weights)
  {
    hide R.NearWater, R.SameWater, R.Grown, LargestPool, Watered, Initial;
    forall t | t in r.weights
      ensures R.NearWater(r.ground, w, t, top)
    {
      R.NearSame(e.ground, r.ground, w, t, top);
    }
    forall t: nat | t < |after|
      ensures after[t].terrType == Fertile <==> t in r.weights && after[t].terrType != Water && after[t].terrType != Rock
      ensures after[t].terrType == Water ==> t in sizes && t in r.weights
    {
      TileGreened(before, w, sizes, e, r, t);
      assert F.Grounds(after)[t].terrType == after[t].terrType;
    }
  }

  lemma TileGreened(before: seq<Tile>, w: nat, sizes: map<int, int>, e: F.Env, r: F.Env, t: nat)
    requires Watered(before, sizes) && e == Initial(F.Grounds(before), w, sizes) && R.Grown(e, r) && t < |r.ground|
    ensures r.ground[t].terrType == Fertile <==> t in r.weights && r.ground[t].terrType != Water && r.ground[t].terrType != Rock
    ensures r.ground[t].terrType == Water ==> t in sizes && t in r.weights
  {
    assert e.ground[t].terrType == before[t].terrType;
    assert t in e.weights <==> WaterTile(e.ground, t);
  }

  /** The whole generator.  No lookup of a pool size fails; elevations stay within 28; fertile is
      exactly the land other than rock that got a weight; and every weighted tile has water
      within fewer than M + 1 index steps, M being a tenth of the largest pool.  `flooded` is the
      map after the water stage, and the finished map bears the marks of the later ones.  */
  method GenerateWorld(world: array<Tile>, w: nat, seeds1: array<real>, seeds2: array<real>, starts: seq<Node>, rand: nat -> nat, plants: Plant -> ubyte,
                       equatorYPos: int)
    returns (sizes: map<int, int>, weights: map<int, real>, ghost flooded: seq<Tile>)
    requires w > 0 && world.Length == seeds1.Length == seeds2.Length == w * w && Noise.Fits(w, BROAD_OCTAVES) && Noise.Fits(w, DETAIL_OCTAVES)
    requires Noise.SeedsWithin(seeds1[..], 0.0, MAX_SEED) && Noise.SeedsWithin(seeds2[..], 0.0, MAX_SEED)
    requires Zeroed(world[..]) && forall p :: p in starts ==> InGrid(w, p)
    modifies world
    ensures ElevationsAtMost(world[..], MAX_HEIGHT) && Greened(world[..], w, sizes, weights)
    ensures var h := NoiseMap(seeds1[..], seeds2[..], w);
            Terrain(h, w) && sizes == PoolSizes(h, w, StartSet(w, starts)) && FloodedLand(flooded, h, w, StartSet(w, starts))
    ensures IsMap(flooded, w) && Cliffs(flooded, world[..], w, rand)
    ensures Climate(CarvedFirst(flooded, w, |flooded|, 4, rand).tiles, world[..], w, equatorYPos, weights)
    ensures OnlyPlants(world[..], plants)
  {
    GenerateWorldElevation(world, w, seeds1, seeds2);
    ghost var raised := world[..];
    assert Elevations(raised) == NoiseMap(seeds1[..], seeds2[..], w) && Terrain(Elevations(raised), w);
    hide NoiseMap, Terrain, PoolSizes;
    sizes := GenerateWorldWaters(world, w, starts);
    FloodedIsWatered(raised, world[..], w, StartSet(w, starts));
    flooded := world[..];
    assert IsMap(flooded, w) && Watered(flooded, sizes) && CLIFF_THRESHOLD == 4;
    IsFloodedLand(raised, flooded, w, StartSet(w, starts));
    hide *;
    GenerateWorldCliffs(world, w, CLIFF_THRESHOLD, rand);
    CarvedIsWatered(flooded, w, rand, sizes);
    CarvedLeaves(flooded, w, rand);
    NoDunesYet(flooded, w, rand);
    ghost var carved := world[..];
    GenerateTemperatureEffect(world, w, equatorYPos);
    TemperedIsWatered(carved, w, equatorYPos, sizes);
    TemperedLeaves(carved, w, equatorYPos);
    ghost var tempered := world[..];
    WateredIsSized(tempered, sizes);
    weights := GenerateEnvironment(world, w, sizes, plants);
    EnvironmentGrows(tempered, world[..], w, sizes, weights);
    SameElevations(tempered, world[..], plants);
    NothingElse(tempered, world[..], sizes, plants);
    EnvironmentLeaves(carved, tempered, world[..], w, equatorYPos, sizes, weights, plants);
    CliffsKept(flooded, carved, tempered, w, rand);
    CliffsKept(flooded, tempered, world[..], w, rand);
  }

  lemma IsFloodedLand(raised: seq<Tile>, flooded: seq<Tile>, w: nat, starts: set<int>)
    requires Terrain(Elevations(raised), w) && IsFlooded(raised, flooded, w, starts)
    requires forall t :: 0 <= t < |raised| ==> raised[t].terrType == Dirt
    ensures FloodedLand(flooded, Elevations(raised), w, starts)
    ensures forall t :: 0 <= t < |flooded| ==> flooded[t].terrType == Dirt || flooded[t].terrType == Water
  {
    hide Wet, Flooded;
  }

  lemma NoDunesYet(flooded: seq<Tile>, w: nat, rand: nat -> nat)
    requires IsMap(flooded, w) && w > 0 && ElevationsAtMost(flooded, MAX_HEIGHT)
    requires forall t :: 0 <= t < |flooded| ==> flooded[t].terrType == Dirt || flooded[t].terrType == Water
    ensures var carved := CarvedFirst(flooded, w, |flooded|, 4, rand).tiles;
            |carved| == |flooded| && forall t :: 0 <= t < |carved| ==> carved[t].terrType != Dunes
  {
    hide CarvedFirst, IsMap;
    CarvedKeeps(flooded, w, |flooded|, 4, rand, MAX_HEIGHT);
    var carved := CarvedFirst(flooded, w, |flooded|, 4, rand).tiles;
    forall t | 0 <= t < |carved|
      ensures carved[t].terrType != Dunes
    {
      assert TileCarved(flooded[t], carved[t]);
    }
  }

  lemma NothingElse(tempered: seq<Tile>, after: seq<Tile>, sizes: map<int, int>, plants: Plant -> ubyte)
    requires Watered(tempered, sizes) && Planted(tempered, after, plants)
    ensures OnlyPlants(after, plants)
  {
    forall t | 0 <= t < |after|
      ensures TilePlanted(tempered[t], after[t], plants)
    {
    }
  }

  lemma SameElevations(before: seq<Tile>, after: seq<Tile>, plants: Plant -> ubyte)
    requires ElevationsAtMost(before, MAX_HEIGHT) && Planted(before, after, plants)
    ensures ElevationsAtMost(after, MAX_HEIGHT)
  {
  }

  lemma WateredIsSized(tiles: seq<Tile>, sizes: map<int, int>)
    requires Watered(tiles, sizes)
    ensures Sized(F.Grounds(tiles), sizes) && ElevationsAtMost(tiles, MAX_HEIGHT)
  {
  }
}
