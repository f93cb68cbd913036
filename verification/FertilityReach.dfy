/** How far fertility reaches from the water. */
module FertilityReach {
  import opened Tiles
  import opened Fertility

  /** `steps` index steps lead from tile `i` to a water tile. */
  ghost predicate ToWater(ground: seq<Ground>, w: nat, i: int, steps: nat)
    decreases steps
  {
    && 0 <= i < |ground|
    && if steps == 0 then ground[i].terrType == Water
       else exists j :: Beside(w, i, j) && ToWater(ground, w, j, steps - 1)
  }

  // ---- An average is reached by one of its terms ---------------------------------------

  lemma {:induction false} ScoreBelow(e: Env, w: nat, i: int, k: nat, bound: real)
    requires k <= 8
    requires forall m: nat :: m < k && Counted(e, w, i, m) ==> Term(e, w, i, m) < bound
    ensures Score(e, w, i, k) <= Count(e, w, i, k) as real * bound
    ensures Count(e, w, i, k) > 0 ==> Score(e, w, i, k) < Count(e, w, i, k) as real * bound
  {
    hide Counted, Term;
    if k > 0 {
      ScoreBelow(e, w, i, k - 1, bound);
      if Counted(e, w, i, k - 1) {
        OneMore(Count(e, w, i, k - 1), bound);
      }
    }
  }

  lemma OneMore(c: nat, bound: real)
    ensures (c + 1) as real * bound == c as real * bound + bound
  {
  }

  lemma AverageIsReached(e: Env, w: nat, i: int) returns (k: nat)
    requires HasCounted(e, w, i)
    ensures k < 8 && Counted(e, w, i, k) && FinalScore(e, w, i) <= Term(e, w, i, k)
  {
    NotAllBelow(e, w, i);
    k :| k < 8 && Counted(e, w, i, k) && FinalScore(e, w, i) <= Term(e, w, i, k);
  }

  lemma NotAllBelow(e: Env, w: nat, i: int)
    requires HasCounted(e, w, i)
    ensures exists m: nat :: m < 8 && Counted(e, w, i, m) && FinalScore(e, w, i) <= Term(e, w, i, m)
  {
    var f := FinalScore(e, w, i);
    ScoreIsTotal(e, w, i);
    if forall m: nat :: m < 8 && Counted(e, w, i, m) ==> Term(e, w, i, m) < f {
      ScoreBelow(e, w, i, 8, f);
    }
  }

  lemma ScoreIsTotal(e: Env, w: nat, i: int)
    requires HasCounted(e, w, i)
    ensures Count(e, w, i, 8) > 0 && Score(e, w, i, 8) == Count(e, w, i, 8) as real * FinalScore(e, w, i)
  {
    var m: nat :| m < 8 && Counted(e, w, i, m);
    CountPositive(e, w, i, m, 8);
    Divided(Score(e, w, i, 8), Count(e, w, i, 8));
  }

  lemma Divided(s: real, c: nat)
    requires c > 0
    ensures s == c as real * (s / c as real)
  {
  }

  /** A new weight is no more than that of some neighbour weighted before, and after the first
      wave at least 1 below it.  */
  lemma WeightDrops(e: Env, w: nat, i: int) returns (j: int)
    requires HasCounted(e, w, i)
    ensures Beside(w, i, j) && 0 <= j < |e.ground| && j !in e.frontier && j in e.weights
    ensures FinalScore(e, w, i) <= e.weights[j] - if e.first then 0.0 else 1.0
  {
    var k := AverageIsReached(e, w, i);
    j := Neighbour(w, i, k);
    assert Beside(w, i, j);
    var d, n := Degree(e.first, k), NegEffect(e.ground[j].temperature);
    assert d * n >= d by {
      assert d >= 0.0;
      Scaled(d, n);
    }
  }

  lemma Scaled(d: real, n: real)
    requires d >= 0.0 && n >= 1.0
    ensures d * n >= d
  {
  }

  // ---- All weights ---------------------------------------------------------------------

  /** Tile `i`, weighted `weight`, is close enough to water. */
  ghost predicate Close(ground: seq<Ground>, w: nat, i: int, weight: real, top: real) {
    exists steps: nat :: ToWater(ground, w, i, steps) && weight + (if steps == 0 then 0 else steps - 1) as real <= top
  }

  ghost predicate Bounded(e: Env, w: nat, top: real) {
    && (forall i :: i in e.weights ==> 0.0 < e.weights[i] <= top && Close(e.ground, w, i, e.weights[i], top))
    && (e.first ==> forall i :: i in e.weights ==> InMap(e, i) && e.ground[i].terrType == Water)
  }

  ghost predicate SameWater(a: seq<Ground>, b: seq<Ground>) {
    |a| == |b| && forall i :: 0 <= i < |a| ==> (a[i].terrType == Water <==> b[i].terrType == Water)
  }

  lemma {:induction false} ToWaterSame(a: seq<Ground>, b: seq<Ground>, w: nat, i: int, steps: nat)
    requires SameWater(a, b) && ToWater(a, w, i, steps)
    ensures ToWater(b, w, i, steps)
    decreases steps
  {
    if steps > 0 {
      var j :| Beside(w, i, j) && ToWater(a, w, j, steps - 1);
      ToWaterSame(a, b, w, j, steps - 1);
    }
  }

  lemma CloseSame(a: seq<Ground>, b: seq<Ground>, w: nat, i: int, weight: real, top: real)
    requires SameWater(a, b) && Close(a, w, i, weight, top)
    ensures Close(b, w, i, weight, top)
  {
    var steps: nat :| ToWater(a, w, i, steps) && weight + (if steps == 0 then 0 else steps - 1) as real <= top;
    ToWaterSame(a, b, w, i, steps);
  }

  lemma NewWeightClose(e: Env, w: nat, i: int, top: real)
    requires EnvOk(e, w) && Bounded(e, w, top) && i in e.frontier && Scores(e, w, i)
    ensures 0.0 < FinalScore(e, w, i) <= top && Close(e.ground, w, i, FinalScore(e, w, i), top)
  {
    var j := WeightDrops(e, w, i);
    var f := FinalScore(e, w, i);
    var steps: nat :| ToWater(e.ground, w, j, steps) && e.weights[j] + (if steps == 0 then 0 else steps - 1) as real <= top;
    if e.first {
      assert ToWater(e.ground, w, j, 0);
      assert ToWater(e.ground, w, i, 1);
    } else {
      assert ToWater(e.ground, w, i, steps + 1);
    }
  }

  lemma WaveKeepsBounded(e: Env, w: nat, top: real)
    requires EnvOk(e, w) && Bounded(e, w, top)
    ensures Bounded(Wave(e, w), w, top)
  {
    var r := Wave(e, w);
    assert SameWater(e.ground, r.ground);
    forall i | i in r.weights
      ensures 0.0 < r.weights[i] <= top && Close(r.ground, w, i, r.weights[i], top)
    {
      if i !in e.weights {
        NewWeightClose(e, w, i, top);
      }
      CloseSame(e.ground, r.ground, w, i, r.weights[i], top);
    }
  }

  /** What the waves do to the weights and the ground as a whole: weights given are kept, only
      fertile land is new, and `top` bounds everything.  */
  ghost predicate Grown(e: Env, r: Env) {
    && |r.ground| == |e.ground|
    && (forall i :: i in e.weights ==> i in r.weights && r.weights[i] == e.weights[i])
    && forall i :: InMap(e, i) ==>
         r.ground[i] == if i in r.weights && i !in e.weights && !e.ground[i].terrType.Rock?
                        then e.ground[i].(terrType := Fertile) else e.ground[i]
  }

  lemma WaveGrows(e: Env, w: nat)
    requires EnvOk(e, w)
    ensures Grown(e, Wave(e, w))
  {
  }

  lemma GrownTwice(e: Env, m: Env, r: Env, w: nat)
    requires EnvOk(e, w) && Grown(e, m) && Grown(m, r)
    ensures Grown(e, r)
  {
  }

  /** Fewer than `top` + 1 index steps lead to water. */
  ghost predicate NearWater(ground: seq<Ground>, w: nat, i: int, top: real) {
    exists steps: nat :: ToWater(ground, w, i, steps) && steps as real < top + 1.0
  }

  lemma NearSame(a: seq<Ground>, b: seq<Ground>, w: nat, i: int, top: real)
    requires SameWater(a, b) && NearWater(a, w, i, top)
    ensures NearWater(b, w, i, top)
  {
    var steps: nat :| ToWater(a, w, i, steps) && steps as real < top + 1.0;
    ToWaterSame(a, b, w, i, steps);
  }

  lemma CloseIsNear(ground: seq<Ground>, w: nat, i: int, weight: real, top: real)
    requires 0.0 < weight && Close(ground, w, i, weight, top)
    ensures NearWater(ground, w, i, top)
  {
  }

  lemma {:induction false} WavesKeep(e: Env, w: nat, top: real)
    requires EnvOk(e, w) && Bounded(e, w, top)
    ensures Grown(e, Waves(e, w)) && Bounded(Waves(e, w), w, top)
    decreases Unweighted(e), |e.frontier|
  {
    if e.frontier == {} {
      assert Waves(e, w) == e;
      assert Grown(e, e);
    } else {
      var m := Wave(e, w);
      WaveKeepsOk(e, w);
      WaveProgress(e, w);
      WaveKeepsBounded(e, w, top);
      WaveGrows(e, w);
      WavesKeep(m, w, top);
      GrownTwice(e, m, Waves(m, w), w);
    }
  }

  /** No tile is weighted twice; exactly the land that got a weight and is not rock turned
      fertile; every weight is positive and at most `top`; and every weighted tile is joined to
      water by fewer than `top` + 1 index steps.  */
  lemma WavesReach(e: Env, w: nat, top: real)
    requires EnvOk(e, w) && Bounded(e, w, top)
    ensures var r := Waves(e, w);
            && Grown(e, r) && SameWater(e.ground, r.ground)
            && forall i :: i in r.weights ==> 0.0 < r.weights[i] <= top && NearWater(e.ground, w, i, top)
  {
    WavesKeep(e, w, top);
    var r := Waves(e, w);
    assert SameWater(r.ground, e.ground);
    forall i | i in r.weights
      ensures NearWater(e.ground, w, i, top)
    {
      CloseSame(r.ground, e.ground, w, i, r.weights[i], top);
      CloseIsNear(e.ground, w, i, r.weights[i], top);
    }
  }
}
