/** Elevation from noise, and the cliffs and ramps cut after the water. */
module ElevationGenerator {
  import opened Grid
  import opened Tiles
  import opened Noise

  // The greatest elevation value asked for, and the height of one elevation level.
  const MAX_ELEVATION := 31
  const LEVEL_STEP := 4
  const LEVELS := MAX_ELEVATION / LEVEL_STEP
  const MAX_HEIGHT := LEVELS * LEVEL_STEP

  // The two height maps: a broad one and a detailed one.
  const BROAD_OCTAVES: nat := 5
  const BROAD_DIVISOR := 0.4
  const DETAIL_OCTAVES: nat := 7
  const DETAIL_DIVISOR := 0.05

  // ---- Elevation from noise ------------------------------------------------------------

  /** Rounds halves away from zero. */
  function Round(v: real): int {
    if v >= 0.0 then (v + 0.5).Floor else -((-v + 0.5).Floor)
  }

  /** The elevation where the two height maps are `broad` and `detail`. */
  function ElevationOf(broad: real, detail: real): int {
    Round(Lerp(broad, detail, 0.25) / (1.0 / LEVELS as real)) * LEVEL_STEP
  }

  // A seed is a random number below MAX_ELEVATION, over MAX_ELEVATION.
  const MAX_SEED := (MAX_ELEVATION - 1) as real / MAX_ELEVATION as real

  lemma RatioBroad()
    ensures Ratio(BROAD_DIVISOR, BROAD_OCTAVES) == 64.4375 / 64.0
  {
  }

  lemma RatioDetail()
    ensures 0.0 <= Ratio(DETAIL_DIVISOR, DETAIL_OCTAVES) <= 1.0
  {
  }

  /** With the octaves and divisors used, every elevation is a whole level, at most 28. */
  lemma ElevationInRange(seeds1: seq<real>, seeds2: seq<real>, width: nat, x: nat, y: nat)
    requires |seeds1| == |seeds2| == width * width && x < width && y < width && Fits(width, BROAD_OCTAVES) && Fits(width, DETAIL_OCTAVES)
    requires SeedsWithin(seeds1, 0.0, MAX_SEED) && SeedsWithin(seeds2, 0.0, MAX_SEED)
    ensures var e := ElevationOf(NoiseAt(seeds1, width, BROAD_DIVISOR, BROAD_OCTAVES, x, y), NoiseAt(seeds2, width, DETAIL_DIVISOR, DETAIL_OCTAVES, x, y));
            0 <= e <= MAX_HEIGHT == 28 && e % LEVEL_STEP == 0
  {
    hide NoiseAt, Ratio;
    RatioBroad();
    RatioDetail();
    NoiseWithin(seeds1, width, BROAD_DIVISOR, BROAD_OCTAVES, x, y, 0.0, MAX_SEED);
    NoiseWithin(seeds2, width, DETAIL_DIVISOR, DETAIL_OCTAVES, x, y, 0.0, MAX_SEED);
    LevelInRange(NoiseAt(seeds1, width, BROAD_DIVISOR, BROAD_OCTAVES, x, y), Ratio(DETAIL_DIVISOR, DETAIL_OCTAVES), NoiseAt(seeds2, width, DETAIL_DIVISOR, DETAIL_OCTAVES, x, y));
  }

  lemma LevelInRange(broad: real, ratio: real, detail: real)
    requires Between(0.0, 64.4375 / 64.0, broad, MAX_SEED) && 0.0 <= ratio <= 1.0 && Between(0.0, ratio, detail, MAX_SEED)
    ensures 0 <= ElevationOf(broad, detail) <= MAX_HEIGHT && ElevationOf(broad, detail) % LEVEL_STEP == 0
  {
    assert 0.0 <= broad <= 0.98;
    assert 0.0 <= detail <= 0.98;
    var v := Lerp(broad, detail, 0.25);
    assert 0.0 <= v <= 0.98;
    assert v / (1.0 / 7.0) == v * 7.0;
  }

  /** Where both height maps are at least as high, so is the elevation. */
  lemma ElevationMonotone(broad1: real, broad2: real, detail1: real, detail2: real)
    requires 0.0 <= broad1 <= broad2 && 0.0 <= detail1 <= detail2
    ensures ElevationOf(broad1, detail1) <= ElevationOf(broad2, detail2)
  {
    var v1, v2 := Lerp(broad1, detail1, 0.25), Lerp(broad2, detail2, 0.25);
    assert 0.0 <= v1 <= v2;
    assert v1 / (1.0 / 7.0) == v1 * 7.0 && v2 / (1.0 / 7.0) == v2 * 7.0;
  }

  /** Only the elevation of a tile differs. */
  ghost predicate SameButElevation(before: seq<Tile>, after: seq<Tile>) {
    |after| == |before| && forall t :: 0 <= t < |before| ==> after[t] == before[t].(elevation := after[t].elevation)
  }

  ghost predicate ElevationsAtMost(tiles: seq<Tile>, top: int) {
    forall t :: 0 <= t < |tiles| ==> tiles[t].elevation <= top
  }

  /** The elevation of tile `i` from the seeds of the two height maps. */
  ghost function ElevationAt(seeds1: seq<real>, seeds2: seq<real>, w: nat, i: nat): int
    requires |seeds1| == |seeds2| == w * w && Fits(w, BROAD_OCTAVES) && Fits(w, DETAIL_OCTAVES) && i < w * w
  {
    AtBounds(w, i);
    var p := At(w, i);
    ElevationOf(NoiseAt(seeds1, w, BROAD_DIVISOR, BROAD_OCTAVES, p.x, p.y), NoiseAt(seeds2, w, DETAIL_DIVISOR, DETAIL_OCTAVES, p.x, p.y))
  }

  /** The elevations of the whole map. */
  ghost function NoiseMap(seeds1: seq<real>, seeds2: seq<real>, w: nat): seq<int>
    requires |seeds1| == |seeds2| == w * w && Fits(w, BROAD_OCTAVES) && Fits(w, DETAIL_OCTAVES)
  {
    seq(w * w, i requires 0 <= i < w * w => ElevationAt(seeds1, seeds2, w, i))
  }

  /** The elevation stage; the two arrays are the random seeds of the two height maps. */
  method GenerateWorldElevation(world: array<Tile>, w: nat, seeds1: array<real>, seeds2: array<real>)
    requires world.Length == seeds1.Length == seeds2.Length == w * w && Fits(w, BROAD_OCTAVES) && Fits(w, DETAIL_OCTAVES)
    requires SeedsWithin(seeds1[..], 0.0, MAX_SEED) && SeedsWithin(seeds2[..], 0.0, MAX_SEED)
    modifies world
    ensures SameButElevation(old(world[..]), world[..])
    ensures forall i :: 0 <= i < world.Length ==>
              world[i].elevation == ElevationAt(seeds1[..], seeds2[..], w, i) <= MAX_HEIGHT && world[i].elevation % LEVEL_STEP == 0
  {
    hide NoiseAt, ElevationOf;
    var heightmap1 := GenerateNoise(seeds1, w, BROAD_OCTAVES, BROAD_DIVISOR);
    var heightmap2 := GenerateNoise(seeds2, w, DETAIL_OCTAVES, DETAIL_DIVISOR);
    forall i | 0 <= i < w * w
      ensures ElevationOf(heightmap1[i], heightmap2[i]) == ElevationAt(seeds1[..], seeds2[..], w, i)
      ensures 0 <= ElevationOf(heightmap1[i], heightmap2[i]) <= MAX_HEIGHT
      ensures ElevationOf(heightmap1[i], heightmap2[i]) % LEVEL_STEP == 0
    {
      AtBounds(w, i);
      var p := At(w, i);
      ElevationInRange(seeds1[..], seeds2[..], w, p.x, p.y);
    }
    CopyElevation(world, w, heightmap1, heightmap2);
  }

  method CopyElevation(world: array<Tile>, w: nat, heightmap1: array<real>, heightmap2: array<real>)
    requires world.Length == heightmap1.Length == heightmap2.Length == w * w
    requires forall i :: 0 <= i < world.Length ==> 0 <= ElevationOf(heightmap1[i], heightmap2[i]) <= MAX_HEIGHT
    modifies world
    ensures forall i :: 0 <= i < world.Length ==>
              world[i] == old(world[i]).(elevation := ElevationOf(heightmap1[i], heightmap2[i]))
  {
    for y := 0 to w
      invariant 0 <= y * w <= world.Length
      invariant forall i :: 0 <= i < y * w ==> world[i] == old(world[i]).(elevation := ElevationOf(heightmap1[i], heightmap2[i]))
      invariant forall i :: y * w <= i < world.Length ==> world[i] == old(world[i])
    {
      RowBounds(w, y);
      CopyRow(world, w, y * w, heightmap1, heightmap2);
    }
  }

  /** The inner loop, over the row that starts at index `row`. */
  method CopyRow(world: array<Tile>, w: nat, row: nat, heightmap1: array<real>, heightmap2: array<real>)
    requires world.Length == heightmap1.Length == heightmap2.Length && row + w <= world.Length
    requires forall i :: 0 <= i < world.Length ==> 0 <= ElevationOf(heightmap1[i], heightmap2[i]) <= MAX_HEIGHT
    modifies world
    ensures forall i :: 0 <= i < world.Length ==>
              world[i] == if row <= i < row + w then old(world[i]).(elevation := ElevationOf(heightmap1[i], heightmap2[i])) else old(world[i])
  {
    for x := 0 to w
      invariant forall i :: 0 <= i < world.Length ==>
                  world[i] == if row <= i < row + x then old(world[i]).(elevation := ElevationOf(heightmap1[i], heightmap2[i])) else old(world[i])
    {
      var index := x + row;
      var h: ubyte := ElevationOf(heightmap1[index], heightmap2[index]);
      world[index] := world[index].(elevation := h);
    }
  }
}
