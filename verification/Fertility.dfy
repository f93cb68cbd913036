/** The fertility waves as functions: one wave, all waves, and what holds of the weights.

    Neighbours are taken by index, so at the map's east and west edges they wrap to the next
    row.  Weights are reals.  */
module Fertility {
  import opened Tiles
  import opened Sets

  // What the waves read of a tile.
  datatype Ground = Ground(terrType: TerrType, temperature: Temperature)

  function Grounds(tiles: seq<Tile>): (r: seq<Ground>)
    ensures |r| == |tiles|
    ensures forall i :: 0 <= i < |r| ==> r[i] == Ground(tiles[i].terrType, tiles[i].temperature)
  {
    seq(|tiles|, i requires 0 <= i < |tiles| => Ground(tiles[i].terrType, tiles[i].temperature))
  }

  // The state between two waves.
  datatype Env = Env(weights: map<int, real>, frontier: set<int>, ground: seq<Ground>, first: bool)

  /** The eight neighbours in direction order: N, NE, E, SE, S, SW, W, NW. */
  function Neighbour(w: nat, i: int, k: nat): int
    requires k < 8
  {
    i + [-(w as int), -(w as int) + 1, 1, w + 1, w, w - 1, -1, -(w as int) - 1][k]
  }

  ghost predicate Beside(w: nat, i: int, j: int) {
    exists k: nat :: k < 8 && Neighbour(w, i, k) == j
  }

  lemma BesideBack(w: nat, i: int, j: int)
    requires Beside(w, i, j)
    ensures Beside(w, j, i)
  {
    var k: nat :| k < 8 && Neighbour(w, i, k) == j;
    assert Neighbour(w, j, (k + 4) % 8) == i;
  }

  /** How strongly temperature speeds up the decrease. */
  function NegEffect(t: Temperature): (r: real)
    ensures r >= 1.0
  {
    match t
    case Hot => 3.0
    case Burning => 5.0
    case _ => 1.0
  }

  /** Diagonals cost 2; straight steps cost nothing in the first wave and 1 later. */
  function Degree(first: bool, k: nat): real {
    if k % 2 == 1 then 2.0 else if first then 0.0 else 1.0
  }

  // ---- The score of one tile -----------------------------------------------------------

  /** Neighbour `k` of tile `i` goes into its score. */
  predicate Counted(e: Env, w: nat, i: int, k: nat)
    requires k < 8
  {
    var j := Neighbour(w, i, k);
    0 <= j < |e.ground| && j !in e.frontier && j in e.weights
  }

  function Term(e: Env, w: nat, i: int, k: nat): real
    requires k < 8 && Counted(e, w, i, k)
  {
    var j := Neighbour(w, i, k);
    e.weights[j] - Degree(e.first, k) * NegEffect(e.ground[j].temperature)
  }

  function Score(e: Env, w: nat, i: int, k: nat): real
    requires k <= 8
  {
    if k == 0 then 0.0
    else Score(e, w, i, k - 1) + if Counted(e, w, i, k - 1) then Term(e, w, i, k - 1) else 0.0
  }

  function Count(e: Env, w: nat, i: int, k: nat): nat
    requires k <= 8
  {
    if k == 0 then 0 else Count(e, w, i, k - 1) + if Counted(e, w, i, k - 1) then 1 else 0
  }

  /** Neighbour `k` is new land the next wave may look at. */
  predicate Fresh(e: Env, w: nat, i: int, k: nat)
    requires k < 8
  {
    var j := Neighbour(w, i, k);
    0 <= j < |e.ground| && j !in e.frontier && j !in e.weights && e.ground[j].terrType != Water
  }

  function Potential(e: Env, w: nat, i: int, k: nat): set<int>
    requires k <= 8
  {
    if k == 0 then {}
    else Potential(e, w, i, k - 1) + if Fresh(e, w, i, k - 1) then {Neighbour(w, i, k - 1)} else {}
  }

  lemma {:induction false} PotentialIs(e: Env, w: nat, i: int, n: nat, j: int)
    requires n <= 8
    ensures j in Potential(e, w, i, n) <==> exists k: nat :: k < n && Fresh(e, w, i, k) && Neighbour(w, i, k) == j
  {
    if n > 0 {
      PotentialIs(e, w, i, n - 1, j);
    }
  }

  lemma {:induction false} CountPositive(e: Env, w: nat, i: int, k: nat, n: nat)
    requires k < n <= 8 && Counted(e, w, i, k)
    ensures Count(e, w, i, n) > 0
  {
    if k < n - 1 {
      CountPositive(e, w, i, k, n - 1);
    }
  }

  /** Every tile to check has something to average over. */
  ghost predicate HasCounted(e: Env, w: nat, i: int) {
    exists k: nat :: k < 8 && Counted(e, w, i, k)
  }

  ghost function FinalScore(e: Env, w: nat, i: int): real
    requires HasCounted(e, w, i)
  {
    var k: nat :| k < 8 && Counted(e, w, i, k);
    CountPositive(e, w, i, k, 8);
    Score(e, w, i, 8) / Count(e, w, i, 8) as real
  }

  // ---- One wave ------------------------------------------------------------------------

  predicate InMap(e: Env, i: int) {
    0 <= i < |e.ground|
  }

  /** What the loop over waves keeps. */
  ghost predicate EnvOk(e: Env, w: nat) {
    && (forall i :: i in e.weights ==> InMap(e, i))
    && (forall i :: i in e.frontier ==> InMap(e, i) && i !in e.weights && e.ground[i].terrType != Water && HasCounted(e, w, i))
    && (forall i :: InMap(e, i) && e.ground[i].terrType == Water ==> i in e.weights)
  }

  /** Tile `i` of the frontier becomes fertile. */
  ghost predicate Scores(e: Env, w: nat, i: int) {
    HasCounted(e, w, i) && FinalScore(e, w, i) > 0.0
  }

  /** The state when the tiles `done` of the frontier have been looked at: the new weights, the
      new terrain and the tiles for the next wave.  */
  ghost function WeightsAfter(e: Env, w: nat, done: set<int>): map<int, real> {
    e.weights + map i | i in done && Scores(e, w, i) :: FinalScore(e, w, i)
  }

  ghost function GroundAfter(e: Env, w: nat, done: set<int>): (r: seq<Ground>)
    ensures |r| == |e.ground|
  {
    seq(|e.ground|, i requires 0 <= i < |e.ground| =>
      if i in done && Scores(e, w, i) && !e.ground[i].terrType.Water? && !e.ground[i].terrType.Rock?
      then e.ground[i].(terrType := Fertile) else e.ground[i])
  }

  ghost function NextAfter(e: Env, w: nat, done: set<int>): set<int> {
    set i, j | i in done && Scores(e, w, i) && j in Potential(e, w, i, 8) :: j
  }

  /** One whole wave. */
  ghost function Wave(e: Env, w: nat): Env {
    Env(WeightsAfter(e, w, e.frontier), NextAfter(e, w, e.frontier), GroundAfter(e, w, e.frontier), false)
  }

  lemma WaveKeepsOk(e: Env, w: nat)
    requires EnvOk(e, w)
    ensures EnvOk(Wave(e, w), w)
  {
    var r := Wave(e, w);
    forall j | j in r.frontier
      ensures InMap(r, j) && j !in r.weights && r.ground[j].terrType != Water && HasCounted(r, w, j)
    {
      var i :| i in e.frontier && Scores(e, w, i) && j in Potential(e, w, i, 8);
      PotentialIs(e, w, i, 8, j);
      var k: nat :| k < 8 && Fresh(e, w, i, k) && Neighbour(w, i, k) == j;
      assert Beside(w, i, j);
      BesideBack(w, i, j);
      var k': nat :| k' < 8 && Neighbour(w, j, k') == i;
      WaveLeaves(e, w, i);
      assert Counted(r, w, j, k');
    }
  }

  /** No tile is in two waves in a row, and none that is weighted is looked at again. */
  lemma WaveLeaves(e: Env, w: nat, i: int)
    requires EnvOk(e, w) && i in e.frontier
    ensures i !in Wave(e, w).frontier
  {
    if i in Wave(e, w).frontier {
      var i' :| i' in e.frontier && Scores(e, w, i') && i in Potential(e, w, i', 8);
      PotentialIs(e, w, i', 8, i);
    }
  }

  ghost function Unweighted(e: Env): set<int> {
    Upto(|e.ground|) - e.weights.Keys
  }

  /** Either some tile gets a weight, or there is no next wave. */
  lemma WaveProgress(e: Env, w: nat)
    requires EnvOk(e, w) && e.frontier != {}
    ensures Unweighted(Wave(e, w)) < Unweighted(e) || (Unweighted(Wave(e, w)) == Unweighted(e) && Wave(e, w).frontier == {})
  {
  }

  /** All waves. */
  ghost function Waves(e: Env, w: nat): (r: Env)
    requires EnvOk(e, w)
    ensures EnvOk(r, w) && r.frontier == {}
    decreases Unweighted(e), |e.frontier|
  {
    if e.frontier == {} then e
    else
      WaveKeepsOk(e, w);
      WaveProgress(e, w);
      Waves(Wave(e, w), w)
  }
}
