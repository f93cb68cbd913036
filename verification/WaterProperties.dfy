/** What the flooded map promises to the stages after it. */
module WaterProperties {
  import opened Grid
  import opened Sets
  import opened Tiles
  import opened WaterPools
  import opened Flooding
  import opened WaterGenerator

  /** Pools are equal, or disjoint with no edge between them. */
  lemma PoolsApart(h: seq<int>, w: nat, s: nat, t: nat)
    requires Terrain(h, w) && s < |h| && t < |h|
    ensures Drain(h, w, s) == Drain(h, w, t)
            || (Drain(h, w, s) !! Drain(h, w, t)
                && forall i, j :: i in Drain(h, w, s) && j in Drain(h, w, t) ==> !Adjacent(w, |h|, i, j))
  {
    var a, b := Drain(h, w, s), Drain(h, w, t);
    if a != b {
      forall i | i in a
        ensures i !in b
      {
        PoolsMeet(h, w, s, t, i);
      }
      forall i, j | i in a && j in b
        ensures !Adjacent(w, |h|, i, j)
      {
        if Adjacent(w, |h|, i, j) {
          DrainStable(h, w, s, i);
          DrainStable(h, w, t, j);
          PoolsTouch(h, w, i, a, j, b);
        }
      }
    }
  }

  lemma PoolsMeet(h: seq<int>, w: nat, s: nat, t: nat, i: int)
    requires Terrain(h, w) && s < |h| && t < |h|
    requires i in Drain(h, w, s)
    ensures i in Drain(h, w, t) ==> Drain(h, w, s) == Drain(h, w, t)
  {
    DrainStable(h, w, s, i);
    if i in Drain(h, w, t) {
      DrainStable(h, w, t, i);
    }
  }

  lemma PoolsTouch(h: seq<int>, w: nat, i: int, a: set<int>, j: int, b: set<int>)
    requires Pool(h, w, i, a) && Pool(h, w, j, b) && Adjacent(w, |h|, i, j)
    ensures j in a
  {
  }

  /** In every flooded map the pools are still the pools, each one flat component strictly
      below all that borders it.  */
  lemma PoolsStayPools(h: seq<int>, w: nat, starts: set<int>, t: int)
    requires Terrain(h, w) && Wet(h, w, starts, t)
    ensures Terrain(Flooded(h, w, starts), w)
    ensures 0 <= t < |h| && Pool(Flooded(h, w, starts), w, t, Drain(h, w, t))
    ensures forall i, j :: i in Drain(h, w, t) && Adjacent(w, |h|, i, j) && j !in Drain(h, w, t) ==>
                             Flooded(h, w, starts)[i] < Flooded(h, w, starts)[j] == h[j]
  {
    WetPool(h, w, starts, t);
    var f, b := Flooded(h, w, starts), Drain(h, w, t);
    FloodedPoolsStay(h, w, starts, t);
    DrainStable(f, w, t, t);
    forall i, j | i in b && Adjacent(w, |h|, i, j) && j !in b
      ensures f[i] < f[j] == h[j]
    {
      RimIsDry(h, w, starts, t, b, i, j);
      FloodedSameShape(h, w, starts);
    }
  }

  /** Flooding a flooded map is flooding once from all the starts: neither the order of the
      starts nor their repetition matters.  */
  lemma FloodedTwice(h: seq<int>, w: nat, starts: set<int>, more: set<int>)
    requires Terrain(h, w)
    ensures Terrain(Flooded(h, w, starts), w)
    ensures Flooded(Flooded(h, w, starts), w, more) == Flooded(h, w, starts + more)
  {
    FloodedSameShape(h, w, starts);
    var f := Flooded(h, w, starts);
    forall t: nat | t < |h|
      ensures FloodedAt(f, w, more, t) == FloodedAt(h, w, starts + more, t)
    {
      forall s: nat | s < |h|
        ensures Drain(f, w, s) == Drain(h, w, s)
      {
        FloodedPoolsStay(h, w, starts, s);
      }
      FloodedPoolsStay(h, w, starts, t);
      WetUnion(h, w, starts, more, t);
    }
  }

  lemma WetUnion(h: seq<int>, w: nat, starts: set<int>, more: set<int>, t: int)
    requires Terrain(h, w)
    ensures Wet(h, w, starts + more, t) <==> Wet(h, w, starts, t) || Wet(h, w, more, t)
  {
  }

  /** The starts are tiles by column and row. */
  lemma StartSetIs(w: nat, starts: seq<Node>, t: int)
    ensures t in StartSet(w, starts) <==> exists p :: p in starts && p.x + p.y * w == t
  {
  }

  /** Tile `j` borders the pool `b`. */
  ghost predicate Borders(h: seq<int>, w: nat, b: set<int>, j: int) {
    j !in b && exists i :: i in b && Adjacent(w, |h|, i, j)
  }

  /** Water stands one below the lowest tile that borders its pool, or at 0 if none does. */
  lemma WaterLevelIs(h: seq<int>, w: nat, starts: set<int>, t: int)
    requires Terrain(h, w) && Wet(h, w, starts, t)
    ensures 0 <= t < |h|
    ensures var b, level := Drain(h, w, t), Flooded(h, w, starts)[t];
            && (forall j :: Borders(h, w, b, j) ==> 0 <= j < |h| && h[j] >= level + 1)
            && (if exists j :: Borders(h, w, b, j) then exists j :: Borders(h, w, b, j) && 0 <= j < |h| && h[j] == level + 1 else level == 0)
  {
    WetPool(h, w, starts, t);
    var b := Drain(h, w, t);
    RimIsBorder(h, w, t, b);
    BorderHeights(h, w, b);
    hide Drain, Wet, Pool, Borders;
  }

  lemma BorderHeights(h: seq<int>, w: nat, b: set<int>)
    requires Terrain(h, w) && RimHeights(h, w, b) == set i, j | i in b && 0 <= j < |h| && Adjacent(w, |h|, i, j) && j !in b :: h[j]
    ensures forall j :: Borders(h, w, b, j) ==> 0 <= j < |h| && h[j] >= Surface(h, w, b) + 1
    ensures if exists j :: Borders(h, w, b, j) then exists j :: Borders(h, w, b, j) && 0 <= j < |h| && h[j] == Surface(h, w, b) + 1
            else Surface(h, w, b) == 0
  {
    var rim := RimHeights(h, w, b);
    forall j | Borders(h, w, b, j)
      ensures 0 <= j < |h| && h[j] in rim && h[j] > 0
    {
      var i :| i in b && Adjacent(w, |h|, i, j);
    }
    if rim != {} {
      var m := MinOf(rim);
      var i, j :| i in b && 0 <= j < |h| && Adjacent(w, |h|, i, j) && j !in b && h[j] == m;
      assert Borders(h, w, b, j);
    }
  }

  // ---- Flat worlds ---------------------------------------------------------------------

  ghost predicate Flat(h: seq<int>) {
    forall i, j :: 0 <= i < |h| && 0 <= j < |h| ==> h[i] == h[j]
  }

  /** Called with -1 the search leaves the water level at -1 exactly in a flat world. */
  lemma NoRimIffFlat(h: seq<int>, w: nat, s: nat)
    requires Terrain(h, w) && s < |h|
    ensures RimLevel(h, w, Drain(h, w, s)) == -1 <==> Flat(h)
  {
    var b := Drain(h, w, s);
    DrainIsPool(h, w, s);
    var s' :| Pool(h, w, s', b);
    assert forall i, j :: i in b && Adjacent(w, |h|, i, j) ==> j in b || h[j] in RimHeights(h, w, b);
    if RimHeights(h, w, b) == {} {
      forall t | 0 <= t < |h|
        ensures t in b
      {
        ClosedIsEverything(w, b, s', t);
      }
    }
  }

  /** Filling lowers no tile, exactly unless some start meets a flat world above level 0. */
  lemma NeverLowers(h: seq<int>, w: nat, starts: set<int>)
    requires Terrain(h, w)
    ensures (forall t :: 0 <= t < |h| ==> h[t] <= Flooded(h, w, starts)[t])
            <==> !Flat(h) || h[0] == 0 || (forall s :: s in starts ==> !(0 <= s < |h|))
  {
    if !Flat(h) {
      forall t: nat | t < |h|
        ensures h[t] <= FloodedAt(h, w, starts, t)
      {
        if Wet(h, w, starts, t) {
          WetPool(h, w, starts, t);
          NoRimIffFlat(h, w, t);
        }
      }
    } else if s: int :| s in starts && 0 <= s < |h| {
      DrainIsPool(h, w, s);
      var t :| Pool(h, w, t, Drain(h, w, s));
      assert Wet(h, w, starts, t);
      DrainStable(h, w, s, t);
      NoRimIffFlat(h, w, t);
      assert Flooded(h, w, starts)[t] == 0;
    } else {
      forall t: nat | t < |h|
        ensures h[t] <= FloodedAt(h, w, starts, t)
      {
      }
    }
  }

  /** A world that is not flat keeps its greatest height, at every tile that has it, and does
      not become flat.  */
  lemma KeepsSummits(h: seq<int>, w: nat, starts: set<int>, top: int, i: nat)
    requires Terrain(h, w) && !Flat(h)
    requires i < |h| && h[i] == top && forall t :: 0 <= t < |h| ==> h[t] <= top
    ensures Flooded(h, w, starts)[i] == top
    ensures forall t :: 0 <= t < |h| ==> Flooded(h, w, starts)[t] <= top
    ensures !Flat(Flooded(h, w, starts))
  {
    if Wet(h, w, starts, i) {
      WetPool(h, w, starts, i);
      assert RimHeights(h, w, Drain(h, w, i)) == {};
      NoRimIffFlat(h, w, i);
    }
    forall t: nat | t < |h|
      ensures FloodedAt(h, w, starts, t) <= top
    {
      FloodedBounded(h, w, starts, top, t);
    }
    FloodedSameShape(h, w, starts);
    NoRimIffFlat(h, w, i);
    FloodedPoolsStay(h, w, starts, i);
    NoRimIffFlat(Flooded(h, w, starts), w, i);
  }

  /** No bound on the elevations is ever exceeded. */
  lemma FloodedBounded(h: seq<int>, w: nat, starts: set<int>, top: int, t: nat)
    requires Terrain(h, w) && t < |h| && forall j :: 0 <= j < |h| ==> h[j] <= top
    ensures 0 <= FloodedAt(h, w, starts, t) <= top
  {
  }

  // ---- The size map --------------------------------------------------------------------

  ghost function IsWater(tiles: seq<Tile>): (r: seq<bool>)
    ensures |r| == |tiles|
    ensures forall i :: 0 <= i < |r| ==> r[i] == tiles[i].terrType.Water?
  {
    seq(|tiles|, i requires 0 <= i < |tiles| => tiles[i].terrType.Water?)
  }

  /** On a world with no water before, the size map holds exactly the water tiles, each with
      the size of its 4-connected body of water.  */
  lemma SizesAreComponentSizes(before: seq<Tile>, after: seq<Tile>, w: nat, starts: set<int>, t: int)
    requires Square(Elevations(before), w) && IsFlooded(before, after, w, starts)
    requires forall i :: 0 <= i < |before| ==> !before[i].terrType.Water?
    ensures var sizes := PoolSizes(Elevations(before), w, starts);
            && (t in sizes <==> 0 <= t < |after| && after[t].terrType.Water?)
            && (t in sizes ==> sizes[t] >= 1 && exists b :: Component(IsWater(after), w, t, b) && sizes[t] == |b|)
  {
    hide Wet, Drain, Component, Flooded;
    var h := Elevations(before);
    if Wet(h, w, starts, t) {
      WetPool(h, w, starts, t);
      BodyOfWater(h, w, starts, t, IsWater(after));
      HasOne(Drain(h, w, t), t);
    }
  }

  lemma HasOne(b: set<int>, t: int)
    requires t in b
    ensures |b| >= 1
  {
    assert b == {t} + (b - {t});
  }

  lemma BodyOfWater(h: seq<int>, w: nat, starts: set<int>, t: int, water: seq<bool>)
    requires Terrain(h, w) && Wet(h, w, starts, t)
    requires |water| == |h| && forall i :: 0 <= i < |h| ==> water[i] == Wet(h, w, starts, i)
    ensures 0 <= t < |h| && Component(water, w, t, Drain(h, w, t))
  {
    WetPool(h, w, starts, t);
    var b := Drain(h, w, t);
    forall i, j | i in b && Adjacent(w, |h|, i, j) && j !in b
      ensures !water[j]
    {
      RimIsDry(h, w, starts, t, b, i, j);
    }
    WaterOverPool(h, w, t, b, water);
  }

  /** A pool that is all water, with no water around it, is a whole body of water. */
  lemma WaterOverPool(h: seq<int>, w: nat, t: int, b: set<int>, water: seq<bool>)
    requires Component(h, w, t, b) && |water| == |h| && forall i :: i in b ==> water[i]
    requires forall i, j :: i in b && Adjacent(w, |h|, i, j) && j !in b ==> !water[j]
    ensures Component(water, w, t, b)
  {
    forall c: set<int> | t in c && SameClosed(water, w, c)
      ensures b <= c
    {
      assert SameClosed(h, w, b * c);
      assert b <= b * c;
    }
  }
}
