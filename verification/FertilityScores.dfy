/** The waves in the numbers of the program: what a tile scores, what one wave does to it, and
    what the first wave starts from.  */
module FertilityScores {
  import opened Tiles
  import opened Sets
  import opened Fertility
  import opened FertilityReach
  import opened EnvironmentGenerator

  // ---- The score of one tile -----------------------------------------------------------

  /** Tile `j` has a weight from an earlier wave. */
  ghost predicate Weighed(e: Env, j: int) {
    0 <= j < |e.ground| && j in e.weights && j !in e.frontier
  }

  /** Its weight, less three times `cost` where it is hot, five times where it is burning, and
      `cost` elsewhere.  */
  ghost function WeightLess(e: Env, j: int, cost: real): real
    requires Weighed(e, j)
  {
    var t := e.ground[j].temperature;
    e.weights[j] - if t == Hot then 3.0 * cost else if t == Burning then 5.0 * cost else cost
  }

  ghost function Share(e: Env, j: int, cost: real): real {
    if Weighed(e, j) then WeightLess(e, j, cost) else 0.0
  }

  ghost function One(e: Env, j: int): nat {
    if Weighed(e, j) then 1 else 0
  }

  /** What a straight step costs. */
  ghost function Straight(e: Env): real {
    if e.first then 0.0 else 1.0
  }

  ghost function HowMany(e: Env, w: int, i: int): nat {
    One(e, i - w) + One(e, i - w + 1) + One(e, i + 1) + One(e, i + w + 1) +
    One(e, i + w) + One(e, i + w - 1) + One(e, i - 1) + One(e, i - w - 1)
  }

  ghost function Shares(e: Env, w: int, i: int): real {
    Share(e, i - w, Straight(e)) + Share(e, i - w + 1, 2.0) + Share(e, i + 1, Straight(e)) + Share(e, i + w + 1, 2.0) +
    Share(e, i + w, Straight(e)) + Share(e, i + w - 1, 2.0) + Share(e, i - 1, Straight(e)) + Share(e, i - w - 1, 2.0)
  }

  lemma OneNeighbour(e: Env, w: nat, i: int, k: nat)
    requires k < 8
    ensures var j := Neighbour(w, i, k);
            && Count(e, w, i, k + 1) == Count(e, w, i, k) + One(e, j)
            && Score(e, w, i, k + 1) == Score(e, w, i, k) + Share(e, j, if k % 2 == 1 then 2.0 else Straight(e))
  {
  }

  /** The score of a tile is the mean of what its weighed neighbours give: a diagonal step costs
      2, a straight one nothing in the first wave and 1 later, times 3 or 5 where it is hot.  */
  lemma ScoreIsMean(e: Env, w: nat, i: int)
    requires HasCounted(e, w, i)
    ensures HowMany(e, w, i) > 0 && FinalScore(e, w, i) == Shares(e, w, i) / HowMany(e, w, i) as real
  {
    AllNeighbours(e, w, i);
    ScoreIsTotal(e, w, i);
    Undone(HowMany(e, w, i) as real, FinalScore(e, w, i));
  }

  lemma Undone(c: real, s: real)
    requires c > 0.0
    ensures (c * s) / c == s
  {
  }

  lemma NeighboursAre(w: nat, i: int)
    ensures Neighbour(w, i, 0) == i - w && Neighbour(w, i, 1) == i - w + 1 && Neighbour(w, i, 2) == i + 1 && Neighbour(w, i, 3) == i + w + 1
    ensures Neighbour(w, i, 4) == i + w && Neighbour(w, i, 5) == i + w - 1 && Neighbour(w, i, 6) == i - 1 && Neighbour(w, i, 7) == i - w - 1
  {
  }

  lemma NoNeighbour(e: Env, w: nat, i: int)
    ensures Count(e, w, i, 0) == 0 && Score(e, w, i, 0) == 0.0
  {
  }

  lemma AllNeighbours(e: Env, w: nat, i: int)
    ensures Count(e, w, i, 8) == HowMany(e, w, i) && Score(e, w, i, 8) == Shares(e, w, i)
  {
    hide Share, One, Count, Score, Neighbour;
    NeighboursAre(w, i);
    NoNeighbour(e, w, i);
    OneNeighbour(e, w, i, 0);
    OneNeighbour(e, w, i, 1);
    OneNeighbour(e, w, i, 2);
    OneNeighbour(e, w, i, 3);
    OneNeighbour(e, w, i, 4);
    OneNeighbour(e, w, i, 5);
    OneNeighbour(e, w, i, 6);
    OneNeighbour(e, w, i, 7);
  }

  /** Index offset `d` is that of a straight step, or of a diagonal one. */
  predicate IsStraight(w: int, d: int) {
    d == w || d == -w || d == 1 || d == -1
  }

  predicate IsDiagonal(w: int, d: int) {
    d == w + 1 || d == w - 1 || d == -w + 1 || d == -w - 1
  }

  ghost predicate HasWeighed(e: Env, w: int, i: int) {
    exists d :: (IsStraight(w, d) || IsDiagonal(w, d)) && Weighed(e, i + d)
  }

  lemma HasCountedIs(e: Env, w: nat, i: int)
    ensures HasCounted(e, w, i) <==> HasWeighed(e, w, i)
  {
    if k: nat :| k < 8 && Counted(e, w, i, k) {
      var d := Neighbour(w, i, k) - i;
      assert IsStraight(w, d) || IsDiagonal(w, d);
      assert Weighed(e, i + d);
    }
    if d :| (IsStraight(w, d) || IsDiagonal(w, d)) && Weighed(e, i + d) {
      var k: nat := if d + w == 0 then 0 else if d + w == 1 then 1 else if d == 1 then 2 else if d == w + 1 then 3
                    else if d == w then 4 else if d == w - 1 then 5 else if d == -1 then 6 else 7;
      assert Neighbour(w, i, k) == i + d;
      assert Counted(e, w, i, k);
    }
  }

  /** What a tile scores when only one of its neighbours is weighed. */
  lemma LoneNeighbour(e: Env, w: nat, i: int, d: int)
    requires w > 2 && (IsStraight(w, d) || IsDiagonal(w, d)) && Weighed(e, i + d)
    requires forall o :: IsStraight(w, o) || IsDiagonal(w, o) ==> o == d || !Weighed(e, i + o)
    ensures HasCounted(e, w, i)
    ensures var m := match e.ground[i + d].temperature case Hot => 3.0 case Burning => 5.0 case _ => 1.0;
            FinalScore(e, w, i) == e.weights[i + d] - if IsDiagonal(w, d) then 2.0 * m else if e.first then 0.0 else m
  {
    HasCountedIs(e, w, i);
    ScoreIsMean(e, w, i);
    LoneShare(e, w, i, d);
  }

  lemma NoShare(e: Env, j: int)
    requires !Weighed(e, j)
    ensures One(e, j) == 0 && Share(e, j, 2.0) == 0.0 && Share(e, j, Straight(e)) == 0.0
  {
  }

  lemma SomeShare(e: Env, j: int)
    requires Weighed(e, j)
    ensures One(e, j) == 1 && Share(e, j, 2.0) == WeightLess(e, j, 2.0) && Share(e, j, Straight(e)) == WeightLess(e, j, Straight(e))
  {
  }

  lemma LoneShare(e: Env, w: int, i: int, d: int)
    requires w > 2 && (IsStraight(w, d) || IsDiagonal(w, d)) && Weighed(e, i + d)
    requires forall o :: IsStraight(w, o) || IsDiagonal(w, o) ==> o == d || !Weighed(e, i + o)
    ensures HowMany(e, w, i) == 1
    ensures Shares(e, w, i) == WeightLess(e, i + d, if IsDiagonal(w, d) then 2.0 else Straight(e))
  {
    hide Weighed, WeightLess;
    hide One, Share;
    forall o | (IsStraight(w, o) || IsDiagonal(w, o)) && o != d
      ensures One(e, i + o) == 0 && Share(e, i + o, 2.0) == Share(e, i + o, Straight(e)) == 0.0
    {
      NoShare(e, i + o);
    }
    SomeShare(e, i + d);
    assert IsStraight(w, -w) && IsStraight(w, w) && IsStraight(w, 1) && IsStraight(w, -1);
    assert IsDiagonal(w, -w + 1) && IsDiagonal(w, w + 1) && IsDiagonal(w, w - 1) && IsDiagonal(w, -w - 1);
  }

  // ---- One wave ------------------------------------------------------------------------

  /** Tile `j` is one of the eight neighbours of `i` by index. */
  predicate OneStep(w: int, i: int, j: int) {
    IsStraight(w, j - i) || IsDiagonal(w, j - i)
  }

  lemma BesideIs(w: nat, i: int, j: int)
    ensures Beside(w, i, j) <==> OneStep(w, i, j)
  {
    var d := j - i;
    if OneStep(w, i, j) {
      var k: nat := if d + w == 0 then 0 else if d + w == 1 then 1 else if d == 1 then 2 else if d == w + 1 then 3
                    else if d == w then 4 else if d == w - 1 then 5 else if d == -1 then 6 else 7;
      assert Neighbour(w, i, k) == j;
    }
  }

  /** One wave: the tiles to check with a score above 0 get it as their weight, and turn fertile
      unless they are rock; the next tiles to check are the land beside those, if it has no
      weight and was not to be checked already.  */
  lemma WaveIs(e: Env, w: nat, i: int)
    requires EnvOk(e, w)
    ensures var r := Wave(e, w);
            && !r.first && |r.ground| == |e.ground|
            && (i in r.weights <==> i in e.weights || (i in e.frontier && FinalScore(e, w, i) > 0.0))
            && (i in e.weights ==> r.weights[i] == e.weights[i])
            && (i in r.weights && i !in e.weights ==> r.weights[i] == FinalScore(e, w, i))
            && (0 <= i < |e.ground| ==>
                  r.ground[i] == if i in r.weights && i !in e.weights && e.ground[i].terrType != Rock
                                 then Ground(Fertile, e.ground[i].temperature) else e.ground[i])
            && (i in r.frontier <==>
                  && 0 <= i < |e.ground| && e.ground[i].terrType != Water && i !in e.weights && i !in e.frontier
                  && exists j :: j in e.frontier && FinalScore(e, w, j) > 0.0 && OneStep(w, j, i))
  {
    var r := Wave(e, w);
    if i in r.frontier {
      var j :| j in e.frontier && Scores(e, w, j) && i in Potential(e, w, j, 8);
      PotentialIs(e, w, j, 8, i);
      BesideIs(w, j, i);
    }
    if j :| j in e.frontier && FinalScore(e, w, j) > 0.0 && OneStep(w, j, i) {
      PotentialIs(e, w, j, 8, i);
      BesideIs(w, j, i);
    }
  }

  /** The first wave starts from a tenth of the pool size on each water tile, and from the land
      beside the water.  */
  lemma InitialIs(ground: seq<Ground>, w: nat, sizes: map<int, int>, i: int)
    requires Sized(ground, sizes)
    ensures var e := Initial(ground, w, sizes);
            && e.first && e.ground == ground
            && (i in e.weights <==> 0 <= i < |ground| && ground[i].terrType == Water)
            && (i in e.weights ==> e.weights[i] == sizes[i] as real / 10.0)
            && (i in e.frontier <==>
                  && 0 <= i < |ground| && ground[i].terrType != Water
                  && exists j :: 0 <= j < |ground| && ground[j].terrType == Water && OneStep(w, j, i))
  {
    var e := Initial(ground, w, sizes);
    if i in e.frontier {
      var j :| WaterTile(ground, j) && j < |ground| && Beside(w, j, i);
      BesideIs(w, j, i);
    }
    if j :| 0 <= j < |ground| && ground[j].terrType == Water && OneStep(w, j, i) {
      BesideIs(w, j, i);
      assert WaterTile(ground, j);
    }
  }

  // ---- Plants --------------------------------------------------------------------------

  /** Palms grow where it is hot or burning and nowhere else, spruces alone where it is cold, both
      spruces and trees where it is mild, and trees alone where it is warm.  */
  lemma PlantsByTemperature(t: Temperature, r: nat)
    ensures PlantFor(t, r) == Palm <==> t == Hot || t == Burning
    ensures PlantFor(t, r) == Spruce <==> t == Freezing || t == Cold || t == Chilly || (t == Mild && r % 5 == 0)
  {
  }
}
