/** Two-dimensional value noise over reals. */
module Noise {
  import opened Grid

  function Lerp(v1: real, v2: real, amount: real): real {
    (1.0 - amount) * v1 + amount * v2
  }

  /** `v` is between the multiples of `r` by `lo` and `hi`. */
  ghost predicate Between(lo: real, r: real, v: real, hi: real) {
    lo * r <= v <= hi * r
  }

  predicate Within(lo: real, v: real, hi: real) {
    lo <= v <= hi
  }

  lemma LerpWithin(lo: real, hi: real, v1: real, v2: real, t: real)
    requires Within(lo, v1, hi) && Within(lo, v2, hi) && 0.0 <= t <= 1.0
    ensures Within(lo, Lerp(v1, v2, t), hi)
  {
    LerpAtLeast(lo, v1, v2, t);
    LerpAtMost(hi, v1, v2, t);
  }

  lemma LerpAtLeast(lo: real, v1: real, v2: real, t: real)
    requires lo <= v1 && lo <= v2 && 0.0 <= t <= 1.0
    ensures lo <= Lerp(v1, v2, t)
  {
    assert t * (v2 - lo) >= 0.0;
    assert (1.0 - t) * (v1 - lo) >= 0.0;
    assert Lerp(v1, v2, t) - lo == t * (v2 - lo) + (1.0 - t) * (v1 - lo);
  }

  lemma LerpAtMost(hi: real, v1: real, v2: real, t: real)
    requires v1 <= hi && v2 <= hi && 0.0 <= t <= 1.0
    ensures Lerp(v1, v2, t) <= hi
  {
    assert t * (hi - v2) >= 0.0;
    assert (1.0 - t) * (hi - v1) >= 0.0;
    assert hi - Lerp(v1, v2, t) == t * (hi - v2) + (1.0 - t) * (hi - v1);
  }

  // ---- One octave ----------------------------------------------------------------------

  function Pow2(n: nat): (r: nat)
    ensures r >= 1
  {
    if n == 0 then 1 else 2 * Pow2(n - 1)
  }

  lemma {:induction false} Pow2Grows(m: nat, n: nat)
    requires m <= n
    ensures Pow2(m) <= Pow2(n)
  {
    if m < n {
      Pow2Grows(m, n - 1);
    }
  }

  /** The sample grid of octave `o` has this spacing; a shift right in the program. */
  function Interval(width: nat, o: nat): nat {
    Quotient(width, Pow2(o))
  }

  function Quotient(a: nat, b: nat): nat
    requires b >= 1
  {
    a / b
  }

  predicate Fits(width: nat, octaves: nat) {
    octaves > 0 ==> width >= Pow2(octaves - 1)
  }

  lemma QuotientPositive(a: nat, b: nat)
    requires a >= b >= 1
    ensures Quotient(a, b) >= 1
  {
  }

  lemma IntervalPositive(width: nat, octaves: nat, o: nat)
    requires Fits(width, octaves) && o < octaves
    ensures Interval(width, o) >= 1
  {
    Pow2Grows(o, octaves - 1);
    QuotientPositive(width, Pow2(o));
  }

  /** The sample position at or before `x`, the one after it, and how far between them `x` is. */
  function Before(x: nat, interval: nat): int
    requires interval >= 1
  {
    x / interval * interval
  }

  function Behind(x: nat, interval: nat, width: nat): int
    requires interval >= 1 && width >= 1
  {
    (Before(x, interval) + interval) % width
  }

  function Amount(x: nat, interval: nat): real
    requires interval >= 1
  {
    (x - Before(x, interval)) as real / interval as real
  }

  lemma SamplesInRange(x: nat, interval: nat, width: nat)
    requires interval >= 1 && x < width
    ensures 0 <= Before(x, interval) <= x && 0 <= Behind(x, interval, width) < width
    ensures 0.0 <= Amount(x, interval) < 1.0
  {
    var b := Before(x, interval);
    assert x == x / interval * interval + x % interval;
    assert 0 <= x - b < interval;
    FractionBelowOne((x - b) as real, interval as real);
  }

  lemma FractionBelowOne(a: real, b: real)
    requires 0.0 <= a < b
    ensures 0.0 <= a / b < 1.0
  {
  }

  ghost predicate SeedsWithin(seeds: seq<real>, lo: real, hi: real) {
    forall i :: 0 <= i < |seeds| ==> Within(lo, seeds[i], hi)
  }

  function Sample(seeds: seq<real>, width: nat, x: int, y: int): real
    requires |seeds| == width * width && 0 <= x < width && 0 <= y < width
  {
    IndexBounds(width, Node(x, y));
    seeds[x + y * width]
  }

  /** The bilinear mix of the four samples around (x, y). */
  function Octave(seeds: seq<real>, width: nat, o: nat, x: nat, y: nat): real
    requires |seeds| == width * width && x < width && y < width && Interval(width, o) >= 1
  {
    var interval := Interval(width, o);
    SamplesInRange(x, interval, width);
    SamplesInRange(y, interval, width);
    var x1, x2 := Before(x, interval), Behind(x, interval, width);
    var y1, y2 := Before(y, interval), Behind(y, interval, width);
    var top := Lerp(Sample(seeds, width, x1, y1), Sample(seeds, width, x2, y1), Amount(x, interval));
    var bottom := Lerp(Sample(seeds, width, x1, y2), Sample(seeds, width, x2, y2), Amount(x, interval));
    Lerp(top, bottom, Amount(y, interval))
  }

  lemma OctaveWithin(seeds: seq<real>, width: nat, o: nat, x: nat, y: nat, lo: real, hi: real)
    requires |seeds| == width * width && x < width && y < width && Interval(width, o) >= 1
    requires SeedsWithin(seeds, lo, hi)
    ensures Within(lo, Octave(seeds, width, o, x, y), hi)
  {
    var interval := Interval(width, o);
    SamplesInRange(x, interval, width);
    SamplesInRange(y, interval, width);
    var x1, x2 := Before(x, interval), Behind(x, interval, width);
    var y1, y2 := Before(y, interval), Behind(y, interval, width);
    SampleWithin(seeds, width, x1, y1, lo, hi);
    SampleWithin(seeds, width, x2, y1, lo, hi);
    SampleWithin(seeds, width, x1, y2, lo, hi);
    SampleWithin(seeds, width, x2, y2, lo, hi);
    LerpWithin(lo, hi, Sample(seeds, width, x1, y1), Sample(seeds, width, x2, y1), Amount(x, interval));
    LerpWithin(lo, hi, Sample(seeds, width, x1, y2), Sample(seeds, width, x2, y2), Amount(x, interval));
    LerpWithin(lo, hi, Lerp(Sample(seeds, width, x1, y1), Sample(seeds, width, x2, y1), Amount(x, interval)),
               Lerp(Sample(seeds, width, x1, y2), Sample(seeds, width, x2, y2), Amount(x, interval)), Amount(y, interval));
  }

  /** At the points of its sample grid an octave is the seed itself. */
  lemma OctaveInterpolates(seeds: seq<real>, width: nat, o: nat, x: nat, y: nat)
    requires |seeds| == width * width && x < width && y < width && Interval(width, o) >= 1
    requires x % Interval(width, o) == 0 && y % Interval(width, o) == 0
    ensures Octave(seeds, width, o, x, y) == Sample(seeds, width, x, y)
  {
    OnGrid(x, Interval(width, o));
    OnGrid(y, Interval(width, o));
    SamplesInRange(x, Interval(width, o), width);
    SamplesInRange(y, Interval(width, o), width);
  }

  lemma OnGrid(x: nat, interval: nat)
    requires interval >= 1 && x % interval == 0
    ensures Before(x, interval) == x && Amount(x, interval) == 0.0
  {
  }

  lemma SampleWithin(seeds: seq<real>, width: nat, x: int, y: int, lo: real, hi: real)
    requires |seeds| == width * width && 0 <= x < width && 0 <= y < width && SeedsWithin(seeds, lo, hi)
    ensures Within(lo, Sample(seeds, width, x, y), hi)
  {
    IndexBounds(width, Node(x, y));
  }

  // ---- All octaves ---------------------------------------------------------------------

  /** The scale factors of the first octaves: each is the one before over the divisor. */
  function Scales(divisor: real, octaves: nat): (r: seq<real>)
    requires divisor > 0.0
    ensures |r| == octaves && Positive(r)
  {
    if octaves == 0 then []
    else Scales(divisor, octaves - 1) + [NextScale(Scales(divisor, octaves - 1), divisor)]
  }

  function NextScale(scales: seq<real>, divisor: real): (r: real)
    requires divisor > 0.0 && Positive(scales)
    ensures r > 0.0
  {
    if scales == [] then 1.0 else scales[|scales| - 1] / divisor
  }

  predicate Positive(scales: seq<real>) {
    forall o :: 0 <= o < |scales| ==> scales[o] > 0.0
  }

  function Sum(scales: seq<real>): real {
    if scales == [] then 0.0 else Sum(scales[..|scales| - 1]) + scales[|scales| - 1]
  }

  /** The integer counter: a fractional scale factor adds its whole part only. */
  function Counter(scales: seq<real>): (r: int)
    requires Positive(scales)
    ensures r >= 1
  {
    if scales == [] then 1 else Counter(scales[..|scales| - 1]) + scales[|scales| - 1].Floor
  }

  /** Each octave counts with its scale factor. */
  function Weighted(values: seq<real>, scales: seq<real>): real
    requires |values| == |scales|
  {
    if values == [] then 0.0
    else
      var o := |values| - 1;
      Weighted(values[..o], scales[..o]) + values[o] * scales[o]
  }

  lemma {:induction false} WeightedWithin(values: seq<real>, scales: seq<real>, lo: real, hi: real)
    requires |values| == |scales| && Positive(scales) && SeedsWithin(values, lo, hi)
    ensures Between(lo, Sum(scales), Weighted(values, scales), hi)
  {
    if values != [] {
      var o := |values| - 1;
      WeightedWithin(values[..o], scales[..o], lo, hi);
      MoreWithin(lo, Sum(scales[..o]), scales[o], Weighted(values[..o], scales[..o]), values[o], hi, Sum(scales), Weighted(values, scales));
    }
  }

  lemma MoreWithin(lo: real, sum: real, scale: real, before: real, v: real, hi: real, sum': real, after: real)
    requires lo <= v <= hi && scale > 0.0 && Between(lo, sum, before, hi) && sum' == sum + scale && after == before + v * scale
    ensures Between(lo, sum', after, hi)
  {
    assert (v - lo) * scale >= 0.0;
    assert (hi - v) * scale >= 0.0;
    assert lo * sum' == lo * sum + lo * scale;
    assert hi * sum' == hi * sum + hi * scale;
  }

  function Over(total: real, scales: seq<real>): real
    requires Positive(scales)
  {
    total / Counter(scales) as real
  }

  lemma Quotients(lo: real, s: real, v: real, hi: real, scales: seq<real>)
    requires Positive(scales) && Between(lo, s, v, hi)
    ensures Between(lo, Over(s, scales), Over(v, scales), hi)
  {
    var c, ratio, q := Counter(scales) as real, Over(s, scales), Over(v, scales);
    assert ratio * c == s && q * c == v;
    NotBelow(q - lo * ratio, c, v - lo * s);
    NotBelow(hi * ratio - q, c, hi * s - v);
  }

  lemma NotBelow(d: real, c: real, p: real)
    requires c > 0.0 && d * c == p && p >= 0.0
    ensures d >= 0.0
  {
  }

  /** The values of the octaves at (x, y). */
  function Octaves(seeds: seq<real>, width: nat, octaves: nat, x: nat, y: nat): (r: seq<real>)
    requires |seeds| == width * width && x < width && y < width && Fits(width, octaves)
    ensures |r| == octaves
  {
    seq(octaves, o requires 0 <= o < octaves => OctaveOf(seeds, width, octaves, o, x, y))
  }

  function OctaveOf(seeds: seq<real>, width: nat, octaves: nat, o: nat, x: nat, y: nat): real
    requires |seeds| == width * width && x < width && y < width && Fits(width, octaves) && o < octaves
  {
    IntervalPositive(width, octaves, o);
    Octave(seeds, width, o, x, y)
  }

  function NoiseAt(seeds: seq<real>, width: nat, divisor: real, octaves: nat, x: nat, y: nat): real
    requires |seeds| == width * width && x < width && y < width && divisor > 0.0 && Fits(width, octaves)
  {
    var scales := Scales(divisor, octaves);
    Over(Weighted(Octaves(seeds, width, octaves, x, y), scales), scales)
  }

  lemma OctavesWithin(seeds: seq<real>, width: nat, octaves: nat, x: nat, y: nat, lo: real, hi: real)
    requires |seeds| == width * width && x < width && y < width && Fits(width, octaves)
    requires SeedsWithin(seeds, lo, hi)
    ensures SeedsWithin(Octaves(seeds, width, octaves, x, y), lo, hi)
  {
    forall o: nat | o < octaves
      ensures Within(lo, OctaveOf(seeds, width, octaves, o, x, y), hi)
    {
      IntervalPositive(width, octaves, o);
      OctaveWithin(seeds, width, o, x, y, lo, hi);
    }
  }

  /** By how much results can exceed the seeds: the sum of the scale factors over their count. */
  function Ratio(divisor: real, octaves: nat): real
    requires divisor > 0.0
  {
    Over(Sum(Scales(divisor, octaves)), Scales(divisor, octaves))
  }

  /** Each result lies between the least and the greatest seed, times the ratio. */
  lemma NoiseWithin(seeds: seq<real>, width: nat, divisor: real, octaves: nat, x: nat, y: nat, lo: real, hi: real)
    requires |seeds| == width * width && x < width && y < width && divisor > 0.0 && Fits(width, octaves)
    requires SeedsWithin(seeds, lo, hi)
    ensures Between(lo, Ratio(divisor, octaves), NoiseAt(seeds, width, divisor, octaves, x, y), hi)
  {
    OctavesWithin(seeds, width, octaves, x, y, lo, hi);
    AverageWithin(Octaves(seeds, width, octaves, x, y), Scales(divisor, octaves), lo, hi);
  }

  lemma AverageWithin(values: seq<real>, scales: seq<real>, lo: real, hi: real)
    requires |values| == |scales| && Positive(scales) && SeedsWithin(values, lo, hi)
    ensures Between(lo, Over(Sum(scales), scales), Over(Weighted(values, scales), scales), hi)
  {
    WeightedWithin(values, scales, lo, hi);
    Quotients(lo, Sum(scales), Weighted(values, scales), hi, scales);
  }

  // ---- The generator -------------------------------------------------------------------

  /** The three sums when the first `o` octaves are added. */
  ghost predicate Summed(values: seq<real>, divisor: real, o: nat, noiseVal: real, scaleFactor: real, count: int)
    requires divisor > 0.0 && o <= |values|
  {
    && noiseVal == Weighted(values[..o], Scales(divisor, o))
    && scaleFactor == NextScale(Scales(divisor, o), divisor)
    && count == Counter(Scales(divisor, o))
  }

  lemma NothingSummed(values: seq<real>, divisor: real)
    requires divisor > 0.0
    ensures Summed(values, divisor, 0, 0.0, 1.0, 1)
  {
  }

  lemma AllSummed(values: seq<real>, divisor: real, noiseVal: real, scaleFactor: real, count: int)
    requires divisor > 0.0 && Summed(values, divisor, |values|, noiseVal, scaleFactor, count)
    ensures count >= 1 && noiseVal / count as real == Over(Weighted(values, Scales(divisor, |values|)), Scales(divisor, |values|))
  {
    assert values[..|values|] == values;
  }

  /** The octave loop at one tile. */
  method NoiseOf(seeds: array<real>, width: nat, divisor: real, octaves: nat, x: nat, y: nat) returns (finalVal: real)
    requires seeds.Length == width * width && x < width && y < width && divisor > 0.0 && Fits(width, octaves)
    ensures finalVal == NoiseAt(seeds[..], width, divisor, octaves, x, y)
  {
    hide Octave, Summed, Over, Weighted, Scales;
    var noiseVal, scaleFactor, count := 0.0, 1.0, 1;
    ghost var values := Octaves(seeds[..], width, octaves, x, y);
    NothingSummed(values, divisor);
    for o := 0 to octaves
      invariant Summed(values, divisor, o, noiseVal, scaleFactor, count)
    {
      IntervalPositive(width, octaves, o);
      var value := MixSamples(seeds, width, o, x, y);
      noiseVal, scaleFactor, count := AddOctave(divisor, value, noiseVal, scaleFactor, count, values, o);
    }
    AllSummed(values, divisor, noiseVal, scaleFactor, count);
    finalVal := noiseVal / count as real;
  }

  method AddOctave(divisor: real, value: real, noiseVal: real, scaleFactor: real, count: int, ghost values: seq<real>, ghost o: nat)
    returns (noiseVal': real, scaleFactor': real, count': int)
    requires divisor > 0.0 && o < |values| && value == values[o] && Summed(values, divisor, o, noiseVal, scaleFactor, count)
    ensures Summed(values, divisor, o + 1, noiseVal', scaleFactor', count')
  {
    hide Weighted, Scales, NextScale, Counter;
    OneMoreOctave(values, divisor, o, value, scaleFactor);
    noiseVal' := noiseVal + value * scaleFactor;
    count' := (count as real + scaleFactor).Floor;
    scaleFactor' := scaleFactor / divisor;
  }

  lemma OneMoreOctave(values: seq<real>, divisor: real, o: nat, value: real, scale: real)
    requires divisor > 0.0 && o < |values| && value == values[o] && scale == NextScale(Scales(divisor, o), divisor)
    ensures Weighted(values[..o + 1], Scales(divisor, o + 1)) == Weighted(values[..o], Scales(divisor, o)) + value * scale
    ensures NextScale(Scales(divisor, o + 1), divisor) == scale / divisor
    ensures Counter(Scales(divisor, o + 1)) == (Counter(Scales(divisor, o)) as real + scale).Floor
  {
    var scales := Scales(divisor, o);
    assert Scales(divisor, o + 1) == scales + [scale];
    assert values[..o + 1] == values[..o] + [value];
    WeightedMore(values[..o], scales, value, scale);
    CounterMore(scales, scale);
  }

  lemma WeightedMore(values: seq<real>, scales: seq<real>, value: real, scale: real)
    requires |values| == |scales|
    ensures Weighted(values + [value], scales + [scale]) == Weighted(values, scales) + value * scale
  {
    assert (values + [value])[..|values|] == values && (scales + [scale])[..|scales|] == scales;
  }

  lemma CounterMore(scales: seq<real>, scale: real)
    requires Positive(scales) && scale > 0.0
    ensures Counter(scales + [scale]) == (Counter(scales) as real + scale).Floor
  {
    assert (scales + [scale])[..|scales|] == scales;
    FloorMore(Counter(scales), scale);
  }

  lemma FloorMore(n: int, r: real)
    ensures (n as real + r).Floor == n + r.Floor
  {
  }

  /** One octave at one tile. */
  method MixSamples(seeds: array<real>, width: nat, o: nat, x: nat, y: nat) returns (v: real)
    requires seeds.Length == width * width && x < width && y < width && Interval(width, o) >= 1
    ensures v == Octave(seeds[..], width, o, x, y)
  {
    var interval := Interval(width, o);
    SamplesInRange(x, interval, width);
    SamplesInRange(y, interval, width);
    var samplePosX1, samplePosY1 := Before(x, interval), Before(y, interval);
    var samplePosX2, samplePosY2 := Behind(x, interval, width), Behind(y, interval, width);
    var lerpAmountX, lerpAmountY := Amount(x, interval), Amount(y, interval);
    IndexBounds(width, Node(samplePosX1, samplePosY1));
    IndexBounds(width, Node(samplePosX2, samplePosY1));
    IndexBounds(width, Node(samplePosX1, samplePosY2));
    IndexBounds(width, Node(samplePosX2, samplePosY2));
    var topVal := Lerp(seeds[samplePosX1 + samplePosY1 * width], seeds[samplePosX2 + samplePosY1 * width], lerpAmountX);
    var bottomVal := Lerp(seeds[samplePosX1 + samplePosY2 * width], seeds[samplePosX2 + samplePosY2 * width], lerpAmountX);
    v := Lerp(topVal, bottomVal, lerpAmountY);
  }

  method GenerateNoise(seeds: array<real>, width: nat, octaves: nat, divisor: real) returns (result: array<real>)
    requires seeds.Length == width * width && divisor > 0.0 && Fits(width, octaves)
    ensures result.Length == width * width && fresh(result)
    ensures forall i: nat :: i < result.Length ==>
              InGrid(width, At(width, i)) && result[i] == NoiseAt(seeds[..], width, divisor, octaves, At(width, i).x, At(width, i).y)
  {
    result := new real[width * width];
    forall x: nat, y: nat | x < width && y < width
      ensures 0 <= Index(width, Node(x, y)) < result.Length
    {
      IndexBounds(width, Node(x, y));
    }
    for x := 0 to width
      invariant forall x': nat, y': nat :: x' < x && y' < width ==>
                  result[Index(width, Node(x', y'))] == NoiseAt(seeds[..], width, divisor, octaves, x', y')
    {
      for y := 0 to width
        invariant forall x': nat, y': nat :: x' < width && y' < width && (x' < x || (x' == x && y' < y)) ==>
                    result[Index(width, Node(x', y'))] == NoiseAt(seeds[..], width, divisor, octaves, x', y')
      {
        var v := NoiseOf(seeds, width, divisor, octaves, x, y);
        forall x': nat, y': nat | x' < width && y' < width && Index(width, Node(x', y')) == Index(width, Node(x, y))
          ensures x' == x && y' == y
        {
          IndexBounds(width, Node(x', y'));
          IndexBounds(width, Node(x, y));
        }
        result[x + y * width] := v;
      }
    }
    forall i: nat | i < result.Length
      ensures InGrid(width, At(width, i)) && result[i] == NoiseAt(seeds[..], width, divisor, octaves, At(width, i).x, At(width, i).y)
    {
      AtBounds(width, i);
      assert result[Index(width, At(width, i))] == NoiseAt(seeds[..], width, divisor, octaves, At(width, i).x, At(width, i).y);
    }
  }
}
