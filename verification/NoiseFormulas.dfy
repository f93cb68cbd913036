/** The noise and the elevations as closed formulas. */
module NoiseFormulas {
  import opened Grid
  import opened Noise
  import opened ElevationGenerator

  /** The samples of the first octave are a map width apart, and each octave halves that. */
  lemma IntervalHalves(width: nat, o: nat)
    ensures Interval(width, 0) == width && Interval(width, o + 1) == Interval(width, o) / 2
  {
    HalfOf(width, Pow2(o));
  }

  lemma HalfOf(a: nat, b: nat)
    requires b >= 1
    ensures a / (2 * b) == a / b / 2
  {
    var q := a / b / 2;
    var r := a / b - 2 * q;
    var s := a - a / b * b;
    assert 0 <= s < b && 0 <= r <= 1;
    assert a == (2 * q + r) * b + s;
    assert (2 * q + r) * b == q * (2 * b) + r * b;
    assert r * b <= b by {
      assert r == 0 || r == 1;
    }
    DivModUnique(2 * b, a, q, r * b + s);
  }

  // ---- Between the samples -------------------------------------------------------------

  /** The sample at or before `x`, and the one after it, wrapped around. */
  function SampleBefore(x: nat, interval: nat): int
    requires interval >= 1
  {
    x - x % interval
  }

  function SampleAfter(x: nat, interval: nat, width: nat): int
    requires interval >= 1 && width >= 1
  {
    (x - x % interval + interval) % width
  }

  lemma LerpTimes(p: real, q: real, t: real, a: real, n: real)
    requires t * n == a
    ensures Lerp(p, q, t) * n == p * (n - a) + q * a
  {
    assert (1.0 - t) * n == n - a;
    assert (1.0 - t) * p * n == p * ((1.0 - t) * n);
    assert t * q * n == q * (t * n);
  }

  /** `v` is the mean of the four corners of a square of side n, each weighted by the area across
      from it, at the place (a, b).  */
  ghost predicate Bilinear(v: real, p: real, q: real, r: real, s: real, a: real, b: real, n: real) {
    v * n * n == (p * (n - a) + q * a) * (n - b) + (r * (n - a) + s * a) * b
  }

  lemma LerpTwice(p: real, q: real, r: real, s: real, t: real, u: real, a: real, b: real, n: real)
    requires t * n == a && u * n == b
    ensures Bilinear(Lerp(Lerp(p, q, t), Lerp(r, s, t), u), p, q, r, s, a, b, n)
  {
    var top, bottom := Lerp(p, q, t), Lerp(r, s, t);
    LerpTimes(p, q, t, a, n);
    LerpTimes(r, s, t, a, n);
    LerpTimes(top, bottom, u, b, n);
    assert (top * (n - b) + bottom * b) * n == top * n * (n - b) + bottom * n * b;
  }

  lemma AmountTimes(x: nat, interval: nat)
    requires interval >= 1
    ensures Before(x, interval) == SampleBefore(x, interval) && forall width: nat :: width >= 1 ==> Behind(x, interval, width) == SampleAfter(x, interval, width)
    ensures Amount(x, interval) * interval as real == (x % interval) as real
  {
    assert x == x / interval * interval + x % interval;
    TimesBack((x - Before(x, interval)) as real, interval as real);
  }

  lemma TimesBack(a: real, b: real)
    requires b > 0.0
    ensures a / b * b == a
  {
  }

  /** Inside a square of samples, a tile gets the mean of the four corners for its place. */
  lemma OctaveIsBilinear(seeds: seq<real>, width: nat, o: nat, x: nat, y: nat)
    requires |seeds| == width * width && x < width && y < width && Interval(width, o) >= 1
    ensures var i := Interval(width, o);
            var n, a, b := i as real, (x % i) as real, (y % i) as real;
            var x1, x2, y1, y2 := SampleBefore(x, i), SampleAfter(x, i, width), SampleBefore(y, i), SampleAfter(y, i, width);
            && 0 <= x1 < width && 0 <= x2 < width && 0 <= y1 < width && 0 <= y2 < width
            && Bilinear(Octave(seeds, width, o, x, y), Sample(seeds, width, x1, y1), Sample(seeds, width, x2, y1),
                        Sample(seeds, width, x1, y2), Sample(seeds, width, x2, y2), a, b, n)
  {
    hide Lerp, Sample, Amount, Before, Behind, SampleBefore, SampleAfter, Interval, Octave, Bilinear;
    var i := Interval(width, o);
    SamplesInRange(x, i, width);
    SamplesInRange(y, i, width);
    AmountTimes(x, i);
    AmountTimes(y, i);
    OctaveIsMix(seeds, width, o, x, y);
    LerpTwice(Sample(seeds, width, Before(x, i), Before(y, i)), Sample(seeds, width, Behind(x, i, width), Before(y, i)),
              Sample(seeds, width, Before(x, i), Behind(y, i, width)), Sample(seeds, width, Behind(x, i, width), Behind(y, i, width)),
              Amount(x, i), Amount(y, i), (x % i) as real, (y % i) as real, i as real);
  }

  lemma OctaveIsMix(seeds: seq<real>, width: nat, o: nat, x: nat, y: nat)
    requires |seeds| == width * width && x < width && y < width && Interval(width, o) >= 1
    ensures var i := Interval(width, o);
            var x1, x2, y1, y2 := Before(x, i), Behind(x, i, width), Before(y, i), Behind(y, i, width);
            && 0 <= x1 < width && 0 <= x2 < width && 0 <= y1 < width && 0 <= y2 < width
            && Octave(seeds, width, o, x, y) ==
               Lerp(Lerp(Sample(seeds, width, x1, y1), Sample(seeds, width, x2, y1), Amount(x, i)),
                    Lerp(Sample(seeds, width, x1, y2), Sample(seeds, width, x2, y2), Amount(x, i)), Amount(y, i))
  {
    hide Lerp, Sample, Amount, Before, Behind, Interval;
    SamplesInRange(x, Interval(width, o), width);
    SamplesInRange(y, Interval(width, o), width);
  }

  lemma SampleIs(seeds: seq<real>, width: nat, x: nat, y: nat)
    requires |seeds| == width * width && x < width && y < width
    ensures 0 <= x + y * width < |seeds| && Sample(seeds, width, x, y) == seeds[x + y * width]
  {
    IndexBounds(width, Node(x, y));
  }

  // ---- The two height maps -------------------------------------------------------------

  /** The first `n` octaves of `values` with the scales of a divisor. */
  ghost function SumFirst(values: seq<real>, divisor: real, n: nat): real
    requires divisor > 0.0 && n <= |values|
  {
    Weighted(values[..n], Scales(divisor, n))
  }

  lemma FirstScale(values: seq<real>, divisor: real)
    requires divisor > 0.0
    ensures SumFirst(values, divisor, 0) == 0.0 && NextScale(Scales(divisor, 0), divisor) == 1.0 && Counter(Scales(divisor, 0)) == 1
  {
  }

  /** Octave `n`, which counts `scale`. */
  lemma NextOctave(values: seq<real>, divisor: real, n: nat, scale: real)
    requires divisor > 0.0 && n < |values| && NextScale(Scales(divisor, n), divisor) == scale
    ensures SumFirst(values, divisor, n + 1) == SumFirst(values, divisor, n) + values[n] * scale
    ensures NextScale(Scales(divisor, n + 1), divisor) == scale / divisor
    ensures Counter(Scales(divisor, n + 1)) == (Counter(Scales(divisor, n)) as real + scale).Floor
  {
    hide Weighted, Scales, NextScale, Counter;
    OneMoreOctave(values, divisor, n, values[n], scale);
  }

  lemma SumAll(seeds: seq<real>, width: nat, divisor: real, octaves: nat, x: nat, y: nat)
    requires |seeds| == width * width && x < width && y < width && divisor > 0.0 && Fits(width, octaves)
    ensures var values := Octaves(seeds, width, octaves, x, y);
            NoiseAt(seeds, width, divisor, octaves, x, y) == SumFirst(values, divisor, octaves) / Counter(Scales(divisor, octaves)) as real
            && forall o: nat :: o < octaves ==> Interval(width, o) >= 1 && values[o] == Octave(seeds, width, o, x, y)
  {
    var values := Octaves(seeds, width, octaves, x, y);
    assert values[..octaves] == values;
    forall o: nat | o < octaves
      ensures Interval(width, o) >= 1 && values[o] == Octave(seeds, width, o, x, y)
    {
      IntervalPositive(width, octaves, o);
      assert values[o] == OctaveOf(seeds, width, octaves, o, x, y);
    }
  }

  /** The broad map: five octaves, each counting 2.5 times the one before, over 64. */
  lemma BroadNoise(seeds: seq<real>, width: nat, x: nat, y: nat)
    requires |seeds| == width * width && x < width && y < width && Fits(width, 5)
    ensures forall o: nat :: o < 5 ==> Interval(width, o) >= 1
    ensures NoiseAt(seeds, width, 0.4, 5, x, y) ==
            (Octave(seeds, width, 0, x, y) + 2.5 * Octave(seeds, width, 1, x, y) + 6.25 * Octave(seeds, width, 2, x, y) +
             15.625 * Octave(seeds, width, 3, x, y) + 39.0625 * Octave(seeds, width, 4, x, y)) / 64.0
  {
    hide NoiseAt, Octave, Octaves, SumFirst, Scales, Counter, Interval;
    SumAll(seeds, width, 0.4, 5, x, y);
    BroadSum(Octaves(seeds, width, 5, x, y));
  }

  /** The detailed map: seven octaves, each counting 20 times the one before. */
  lemma DetailNoise(seeds: seq<real>, width: nat, x: nat, y: nat)
    requires |seeds| == width * width && x < width && y < width && Fits(width, 7)
    ensures forall o: nat :: o < 7 ==> Interval(width, o) >= 1
    ensures NoiseAt(seeds, width, 0.05, 7, x, y) ==
            (Octave(seeds, width, 0, x, y) + 20.0 * Octave(seeds, width, 1, x, y) + 400.0 * Octave(seeds, width, 2, x, y) +
             8000.0 * Octave(seeds, width, 3, x, y) + 160000.0 * Octave(seeds, width, 4, x, y) +
             3200000.0 * Octave(seeds, width, 5, x, y) + 64000000.0 * Octave(seeds, width, 6, x, y)) / 67368422.0
  {
    hide NoiseAt, Octave, Octaves, SumFirst, Scales, Counter, Interval;
    SumAll(seeds, width, 0.05, 7, x, y);
    DetailSum(Octaves(seeds, width, 7, x, y));
  }

  lemma BroadSum(values: seq<real>)
    requires |values| == 5
    ensures SumFirst(values, 0.4, 5) == values[0] + 2.5 * values[1] + 6.25 * values[2] + 15.625 * values[3] + 39.0625 * values[4]
    ensures Counter(Scales(0.4, 5)) == 64
  {
    hide SumFirst, Scales, NextScale, Counter;
    FirstScale(values, 0.4);
    NextOctave(values, 0.4, 0, 1.0);
    NextOctave(values, 0.4, 1, 2.5);
    NextOctave(values, 0.4, 2, 6.25);
    NextOctave(values, 0.4, 3, 15.625);
    NextOctave(values, 0.4, 4, 39.0625);
  }

  lemma DetailSum(values: seq<real>)
    requires |values| == 7
    ensures SumFirst(values, 0.05, 7) == values[0] + 20.0 * values[1] + 400.0 * values[2] + 8000.0 * values[3] + 160000.0 * values[4] + 3200000.0 * values[5] + 64000000.0 * values[6]
    ensures Counter(Scales(0.05, 7)) == 67368422
  {
    hide SumFirst, Scales, NextScale, Counter;
    FirstScale(values, 0.05);
    NextOctave(values, 0.05, 0, 1.0);
    NextOctave(values, 0.05, 1, 20.0);
    NextOctave(values, 0.05, 2, 400.0);
    NextOctave(values, 0.05, 3, 8000.0);
    NextOctave(values, 0.05, 4, 160000.0);
    NextOctave(values, 0.05, 5, 3200000.0);
    NextOctave(values, 0.05, 6, 64000000.0);
  }

  // ---- Elevations ----------------------------------------------------------------------

  /** The elevation is the multiple of 4 nearest to 28 times the mix of three quarters broad and
      one quarter detail; half way it is the higher one.  */
  lemma ElevationIsNearest(broad: real, detail: real)
    requires broad >= 0.0 && detail >= 0.0
    ensures ElevationOf(broad, detail) % 4 == 0
    ensures var v := 21.0 * broad + 7.0 * detail;
            v - 2.0 < ElevationOf(broad, detail) as real <= v + 2.0
  {
    var mix := Lerp(broad, detail, 0.25);
    assert mix / (1.0 / 7.0) == mix * 7.0;
    assert mix * 7.0 == 5.25 * broad + 1.75 * detail;
    assert LEVELS == 7 && LEVEL_STEP == 4;
  }

  /** Tile (x, y) of the noise map: the first seeds make the broad map, the others the detail. */
  lemma NoiseMapIs(seeds1: seq<real>, seeds2: seq<real>, w: nat, x: nat, y: nat)
    requires |seeds1| == |seeds2| == w * w && Fits(w, BROAD_OCTAVES) && Fits(w, DETAIL_OCTAVES) && x < w && y < w
    ensures Fits(w, 5) && Fits(w, 7) && |NoiseMap(seeds1, seeds2, w)| == w * w && 0 <= x + y * w < w * w
    ensures NoiseMap(seeds1, seeds2, w)[x + y * w] == ElevationOf(NoiseAt(seeds1, w, 0.4, 5, x, y), NoiseAt(seeds2, w, 0.05, 7, x, y))
  {
    hide NoiseAt, ElevationOf;
    IndexBounds(w, Node(x, y));
  }
}
