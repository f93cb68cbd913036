/** The search finds pools, filling a pool keeps the shape of the map, and so the flooded map
    has a closed form that depends only on the set of starting tiles.  */
module Flooding {
  import opened Grid
  import opened Sets
  import opened WaterPools

  // ---- The search finds a pool ---------------------------------------------------------

  ghost function Pending(w: nat, stack: seq<Node>): set<int> {
    set p | p in stack :: Index(w, p)
  }

  /** What holds half way through the search of the plateau of tile `s`. */
  ghost predicate Explored(h: seq<int>, w: nat, s: int, stack: seq<Node>, visited: set<int>) {
    && Square(h, w) && 0 <= s < |h| && AllAt(h, w, stack, h[s])
    && Frontier(h, w, s, Pending(w, stack), visited)
  }

  /** The tiles `visited` are on the plateau, and all of it that lies beside them is pending. */
  ghost predicate Frontier(h: seq<int>, w: nat, s: int, pending: set<int>, visited: set<int>)
    requires 0 <= s < |h|
  {
    && (forall i :: i in visited ==> 0 <= i < |h| && h[i] == h[s])
    && s in visited + pending
    && (forall i, j :: i in visited && Adjacent(w, |h|, i, j) ==>
          h[s] <= h[j] && (h[j] == h[s] ==> j in visited + pending))
    && (forall c: set<int> :: s in c && SameClosed(h, w, c) ==> visited + pending <= c)
  }

  lemma ExploredSkip(h: seq<int>, w: nat, s: int, stack: seq<Node>, visited: set<int>)
    requires Explored(h, w, s, stack, visited) && stack != []
    requires Index(w, stack[|stack| - 1]) in visited
    ensures Explored(h, w, s, stack[..|stack| - 1], visited)
  {
    var p, rest := stack[|stack| - 1], stack[..|stack| - 1];
    assert stack == rest + [p];
    assert Pending(w, stack) == Pending(w, rest) + {Index(w, p)};
  }

  lemma ExploredVisit(h: seq<int>, w: nat, s: int, stack: seq<Node>, visited: set<int>)
    requires Explored(h, w, s, stack, visited) && stack != []
    requires FirstLower(h, w, stack[|stack| - 1], 0).None?
    ensures Explored(h, w, s, stack[..|stack| - 1] + Level(h, w, stack[|stack| - 1], visited, 4),
                     visited + {Index(w, stack[|stack| - 1])})
  {
    var p, rest := stack[|stack| - 1], stack[..|stack| - 1];
    var level := Level(h, w, p, visited, 4);
    IndexBounds(w, p);
    assert stack == rest + [p];
    assert Pending(w, stack) == Pending(w, rest) + {Index(w, p)};
    assert Pending(w, rest + level) == Pending(w, rest) + Pending(w, level);
    FrontierVisit(h, w, s, Pending(w, rest), p, visited);
  }

  lemma FrontierVisit(h: seq<int>, w: nat, s: int, rest: set<int>, p: Node, visited: set<int>)
    requires Square(h, w) && 0 <= s < |h| && InGrid(w, p) && 0 <= Index(w, p) < |h| && Height(h, w, p) == h[s]
    requires Frontier(h, w, s, rest + {Index(w, p)}, visited) && FirstLower(h, w, p, 0).None?
    ensures Frontier(h, w, s, rest + Pending(w, Level(h, w, p, visited, 4)), visited + {Index(w, p)})
  {
    var i, pushed := Index(w, p), Pending(w, Level(h, w, p, visited, 4));
    assert h[i] == h[s];
    hide SameClosed, Level, FirstLower, Pending, Height, Index;
    forall j | Adjacent(w, |h|, i, j)
      ensures h[s] <= h[j] && (h[j] == h[s] ==> j in visited + pushed)
    {
      BesideVisited(h, w, p, visited, j);
    }
    forall c: set<int> | s in c && SameClosed(h, w, c)
      ensures (visited + {i}) + (rest + pushed) <= c
    {
      assert i in rest + {i};
      LevelWithin(h, w, p, visited, c);
    }
  }

  /** No neighbour of a visited tile is lower, and those at its height are visited or pushed. */
  lemma BesideVisited(h: seq<int>, w: nat, p: Node, visited: set<int>, j: int)
    requires Square(h, w) && InGrid(w, p) && FirstLower(h, w, p, 0).None? && Adjacent(w, |h|, Index(w, p), j)
    ensures Height(h, w, p) <= h[j]
    ensures h[j] == Height(h, w, p) ==> j in visited + Pending(w, Level(h, w, p, visited, 4))
  {
    var d := AdjacentIsStep(w, p, j);
  }

  lemma LevelWithin(h: seq<int>, w: nat, p: Node, visited: set<int>, c: set<int>)
    requires Square(h, w) && InGrid(w, p) && Index(w, p) in c && SameClosed(h, w, c)
    ensures Pending(w, Level(h, w, p, visited, 4)) <= c
  {
    forall q | q in Level(h, w, p, visited, 4)
      ensures Index(w, q) in c
    {
      var e: nat :| e < 4 && Step(p, e) == q;
      StepAdjacent(w, p, e);
    }
  }

  /** A leak: `q` is lower than, and next to, a tile of the plateau of `s`. */
  ghost predicate Leak(h: seq<int>, w: nat, s: int, i: int, q: Node) {
    && Square(h, w) && 0 <= s < |h| && InGrid(w, q) && Adjacent(w, |h|, i, Index(w, q))
    && h[i] == h[s] && h[Index(w, q)] < h[s]
    && (forall c: set<int> :: s in c && SameClosed(h, w, c) ==> i in c)
  }

  ghost predicate Finds(h: seq<int>, w: nat, s: int, found: Found) {
    match found
    case Basin(b) => Pool(h, w, s, b)
    case LeaksTo(q) => exists i :: Leak(h, w, s, i, q)
  }

  lemma LeakFound(h: seq<int>, w: nat, s: int, stack: seq<Node>, visited: set<int>)
    requires Explored(h, w, s, stack, visited) && stack != []
    requires FirstLower(h, w, stack[|stack| - 1], 0).Some?
    ensures Leak(h, w, s, Index(w, stack[|stack| - 1]), FirstLower(h, w, stack[|stack| - 1], 0).value)
  {
    var p := stack[|stack| - 1];
    var q := FirstLower(h, w, p, 0).value;
    var e: nat :| e < 4 && Step(p, e) == q;
    StepAdjacent(w, p, e);
    assert p in stack;
    assert Index(w, p) in Pending(w, stack);
  }

  lemma {:induction false} SearchFinds(h: seq<int>, w: nat, s: int, stack: seq<Node>, visited: set<int>)
    requires Explored(h, w, s, stack, visited)
    ensures Finds(h, w, s, Search(h, w, stack, visited, h[s]))
    decreases Unvisited(h, visited), |stack|
  {
    if stack == [] {
      assert Pending(w, stack) == {};
    } else {
      var p := stack[|stack| - 1];
      if Index(w, p) in visited {
        ExploredSkip(h, w, s, stack, visited);
        SearchFinds(h, w, s, stack[..|stack| - 1], visited);
      } else if FirstLower(h, w, p, 0).Some? {
        LeakFound(h, w, s, stack, visited);
      } else {
        IndexBounds(w, p);
        assert Index(w, p) in Unvisited(h, visited);
        ExploredVisit(h, w, s, stack, visited);
        SearchFinds(h, w, s, stack[..|stack| - 1] + Level(h, w, p, visited, 4), visited + {Index(w, p)});
      }
    }
  }

  lemma ExploredStart(h: seq<int>, w: nat, s: int)
    requires Square(h, w) && 0 <= s < |h|
    ensures AllAt(h, w, [At(w, s)], h[s]) && Explored(h, w, s, [At(w, s)], {})
  {
    AtBounds(w, s);
    assert Pending(w, [At(w, s)]) == {s};
  }

  lemma FromTile(h: seq<int>, w: nat, s: int)
    requires Square(h, w) && 0 <= s < |h|
    ensures AllAt(h, w, [At(w, s)], h[s]) && Finds(h, w, s, Search(h, w, [At(w, s)], {}, h[s]))
  {
    ExploredStart(h, w, s);
    SearchFinds(h, w, s, [At(w, s)], {});
  }

  /** The search ends, restarts included, in a pool. */
  lemma {:induction false} DrainIsPool(h: seq<int>, w: nat, i: nat)
    requires Terrain(h, w) && i < |h|
    ensures IsPool(h, w, Drain(h, w, i))
    decreases h[i]
  {
    FromTile(h, w, i);
    match Search(h, w, [At(w, i)], {}, h[i])
    case Basin(b) =>
      assert Pool(h, w, i, b);
    case LeaksTo(q) =>
      IndexBounds(w, q);
      DrainIsPool(h, w, Index(w, q));
  }

  ghost predicate IsPool(h: seq<int>, w: nat, b: set<int>) {
    exists s :: Pool(h, w, s, b)
  }

  lemma PoolHasNoLeak(h: seq<int>, w: nat, s: int, b: set<int>, q: Node)
    requires Pool(h, w, s, b)
    ensures forall i :: !Leak(h, w, s, i, q)
  {
  }

  /** From any tile of a pool the search finds that pool. */
  lemma DrainOfPool(h: seq<int>, w: nat, s: int, b: set<int>, t: nat)
    requires Terrain(h, w) && Pool(h, w, s, b) && t in b
    ensures Drain(h, w, t) == b
  {
    ComponentFromAny(h, w, s, t, b);
    FromTile(h, w, t);
    match Search(h, w, [At(w, t)], {}, h[t])
    case Basin(c) =>
      ComponentUnique(h, w, t, b, c);
    case LeaksTo(q) =>
      PoolHasNoLeak(h, w, t, b, q);
      assert false;
  }

  /** A search result is the pool of each of its tiles. */
  lemma DrainStable(h: seq<int>, w: nat, i: nat, t: int)
    requires Terrain(h, w) && i < |h| && t in Drain(h, w, i)
    ensures 0 <= t < |h| && Drain(h, w, t) == Drain(h, w, i)
    ensures Pool(h, w, t, Drain(h, w, t))
  {
    DrainIsPool(h, w, i);
    var s :| Pool(h, w, s, Drain(h, w, i));
    DrainOfPool(h, w, s, Drain(h, w, i), t);
    ComponentFromAny(h, w, s, t, Drain(h, w, i));
  }

  /** The pool below a tile has a rim no higher than any higher neighbour of that tile. */
  lemma {:induction false} RimBelow(h: seq<int>, w: nat, s: nat, j: nat) returns (k: int)
    requires Terrain(h, w) && s < |h| && Adjacent(w, |h|, s, j) && h[s] < h[j]
    ensures k in RimHeights(h, w, Drain(h, w, s)) && 0 <= k <= h[j]
    decreases h[s]
  {
    FromTile(h, w, s);
    match Search(h, w, [At(w, s)], {}, h[s])
    case Basin(b) =>
      k := h[j];
    case LeaksTo(q) =>
      var i :| Leak(h, w, s, i, q);
      IndexBounds(w, q);
      assert Adjacent(w, |h|, Index(w, q), i);
      k := RimBelow(h, w, Index(w, q), i);
  }

  // ---- Maps of the same shape ----------------------------------------------------------

  /** Every comparison between adjacent tiles comes out the same on both maps. */
  ghost predicate SameShape(h: seq<int>, h': seq<int>, w: nat) {
    && |h| == |h'|
    && forall i, j :: Adjacent(w, |h|, i, j) ==> (h[i] < h[j] <==> h'[i] < h'[j])
  }

  lemma {:induction false} FirstLowerSameShape(h: seq<int>, h': seq<int>, w: nat, p: Node, d: nat)
    requires Square(h, w) && SameShape(h, h', w) && InGrid(w, p) && d <= 4
    ensures FirstLower(h, w, p, d) == FirstLower(h', w, p, d)
    decreases 4 - d
  {
    if d < 4 {
      if InGrid(w, Step(p, d)) {
        StepAdjacent(w, p, d);
        assert Adjacent(w, |h|, Index(w, Step(p, d)), Index(w, p));
      }
      FirstLowerSameShape(h, h', w, p, d + 1);
    }
  }

  lemma {:induction false} LevelSameShape(h: seq<int>, h': seq<int>, w: nat, p: Node, visited: set<int>, d: nat)
    requires Square(h, w) && SameShape(h, h', w) && InGrid(w, p) && d <= 4
    ensures Level(h, w, p, visited, d) == Level(h', w, p, visited, d)
  {
    if d > 0 {
      var q := Step(p, d - 1);
      if InGrid(w, q) {
        StepAdjacent(w, p, d - 1);
        assert Adjacent(w, |h|, Index(w, q), Index(w, p));
      }
      LevelSameShape(h, h', w, p, visited, d - 1);
    }
  }

  lemma {:induction false} SearchSameShape(h: seq<int>, h': seq<int>, w: nat, stack: seq<Node>, visited: set<int>, k: int, k': int)
    requires Square(h, w) && SameShape(h, h', w)
    requires AllAt(h, w, stack, k) && AllAt(h', w, stack, k')
    ensures Search(h, w, stack, visited, k) == Search(h', w, stack, visited, k')
    decreases Unvisited(h, visited), |stack|
  {
    if stack != [] {
      var p, rest := stack[|stack| - 1], stack[..|stack| - 1];
      if Index(w, p) in visited {
        SearchSameShape(h, h', w, rest, visited, k, k');
      } else {
        FirstLowerSameShape(h, h', w, p, 0);
        if FirstLower(h, w, p, 0).None? {
          LevelSameShape(h, h', w, p, visited, 4);
          IndexBounds(w, p);
          assert Index(w, p) in Unvisited(h, visited);
          SearchSameShape(h, h', w, rest + Level(h, w, p, visited, 4), visited + {Index(w, p)}, k, k');
        }
      }
    }
  }

  /** The pool a start leads to depends on the shape of the map only. */
  lemma {:induction false} DrainSameShape(h: seq<int>, h': seq<int>, w: nat, i: nat)
    requires Terrain(h, w) && Terrain(h', w) && SameShape(h, h', w) && i < |h|
    ensures Drain(h, w, i) == Drain(h', w, i)
    decreases h[i]
  {
    ExploredStart(h, w, i);
    ExploredStart(h', w, i);
    SearchSameShape(h, h', w, [At(w, i)], {}, h[i], h'[i]);
    match Search(h, w, [At(w, i)], {}, h[i])
    case Basin(b) =>
    case LeaksTo(q) =>
      IndexBounds(w, q);
      DrainSameShape(h, h', w, Index(w, q));
  }

  // ---- The flooded map -----------------------------------------------------------------

  /** The height the tiles of a pool are set to, one below the rim. */
  ghost function Surface(h: seq<int>, w: nat, b: set<int>): (r: int)
    requires Terrain(h, w)
    ensures r >= 0
    ensures RimHeights(h, w, b) == {} ==> r == 0
    ensures RimHeights(h, w, b) != {} && MinOf(RimHeights(h, w, b)) > 0 ==> r == MinOf(RimHeights(h, w, b)) - 1
  {
    var rim := RimLevel(h, w, b);
    var level := if rim == -1 then 0 else rim;
    if level > 0 then level - 1 else level
  }

  /** Tile `t` is in the pool some start leads to. */
  ghost predicate Wet(h: seq<int>, w: nat, starts: set<int>, t: int)
    requires Terrain(h, w)
  {
    exists s :: s in starts && 0 <= s < |h| && t in Drain(h, w, s)
  }

  ghost function FloodedAt(h: seq<int>, w: nat, starts: set<int>, t: nat): int
    requires Terrain(h, w) && t < |h|
  {
    if Wet(h, w, starts, t) then Surface(h, w, Drain(h, w, t)) else h[t]
  }

  /** The elevations after all starts are processed: a function of the original map and the
      set of starts, with no order, no repetition and no intermediate map in it. */
  ghost function Flooded(h: seq<int>, w: nat, starts: set<int>): (r: seq<int>)
    requires Terrain(h, w)
    ensures |r| == |h|
    ensures forall t :: 0 <= t < |h| ==> r[t] == FloodedAt(h, w, starts, t)
  {
    seq(|h|, t requires 0 <= t < |h| => FloodedAt(h, w, starts, t))
  }

  /** One fill: what the generator writes after one search. */
  ghost function Fill(h: seq<int>, w: nat, b: set<int>): (r: seq<int>)
    requires Terrain(h, w)
    ensures |r| == |h|
    ensures forall t :: 0 <= t < |h| ==> r[t] == if t in b then Surface(h, w, b) else h[t]
  {
    seq(|h|, t requires 0 <= t < |h| => if t in b then Surface(h, w, b) else h[t])
  }

  /** A wet tile lies in its own pool, all of which is wet. */
  lemma WetPool(h: seq<int>, w: nat, starts: set<int>, t: int)
    requires Terrain(h, w) && Wet(h, w, starts, t)
    ensures 0 <= t < |h| && t in Drain(h, w, t) && Pool(h, w, t, Drain(h, w, t))
    ensures forall u :: u in Drain(h, w, t) ==> Wet(h, w, starts, u)
  {
    var s :| s in starts && 0 <= s < |h| && t in Drain(h, w, s);
    DrainStable(h, w, s, t);
  }

  /** The surface of a pool lies between its old height and the tiles around it. */
  lemma SurfaceBelowRim(h: seq<int>, w: nat, s: int, b: set<int>, i: int, j: int)
    requires Terrain(h, w) && Pool(h, w, s, b) && i in b && j !in b && Adjacent(w, |h|, i, j)
    ensures h[i] <= Surface(h, w, b) < h[j]
  {
    assert h[j] in RimHeights(h, w, b);
  }

  /** Next to a tile of a pool, outside it, is higher ground that no start fills. */
  lemma RimIsDry(h: seq<int>, w: nat, starts: set<int>, s: int, b: set<int>, i: int, j: int)
    requires Terrain(h, w) && Pool(h, w, s, b) && i in b && j !in b && Adjacent(w, |h|, i, j)
    ensures h[i] < h[j] && !Wet(h, w, starts, j)
  {
    assert Adjacent(w, |h|, j, i);
    if Wet(h, w, starts, j) {
      WetPool(h, w, starts, j);
    }
  }

  /** Flooding keeps every comparison between adjacent tiles. */
  lemma FloodedSameShape(h: seq<int>, w: nat, starts: set<int>)
    requires Terrain(h, w)
    ensures Terrain(Flooded(h, w, starts), w)
    ensures SameShape(h, Flooded(h, w, starts), w)
  {
    forall i, j | Adjacent(w, |h|, i, j)
      ensures h[i] < h[j] <==> FloodedAt(h, w, starts, i) < FloodedAt(h, w, starts, j)
    {
      FloodedPair(h, w, starts, i, j);
    }
  }

  lemma FloodedPair(h: seq<int>, w: nat, starts: set<int>, i: int, j: int)
    requires Terrain(h, w) && Adjacent(w, |h|, i, j)
    ensures h[i] < h[j] <==> FloodedAt(h, w, starts, i) < FloodedAt(h, w, starts, j)
  {
    assert Adjacent(w, |h|, j, i);
    if Wet(h, w, starts, i) {
      FloodedOneWet(h, w, starts, i, j);
    } else if Wet(h, w, starts, j) {
      FloodedOneWet(h, w, starts, j, i);
    }
  }

  lemma FloodedOneWet(h: seq<int>, w: nat, starts: set<int>, i: int, j: int)
    requires Terrain(h, w) && Adjacent(w, |h|, i, j) && Wet(h, w, starts, i)
    ensures h[i] <= h[j] && (h[i] < h[j] <==> FloodedAt(h, w, starts, i) < FloodedAt(h, w, starts, j))
    ensures h[i] == h[j] ==> FloodedAt(h, w, starts, i) == FloodedAt(h, w, starts, j)
  {
    WetPool(h, w, starts, i);
    var b := Drain(h, w, i);
    if j in b {
      WetPool(h, w, starts, j);
      DrainStable(h, w, i, j);
    } else {
      RimIsDry(h, w, starts, i, b, i, j);
      SurfaceBelowRim(h, w, i, b, i, j);
    }
  }

  /** The pool of a tile and its rim level are the same before and after any flooding. */
  lemma FloodedPoolsStay(h: seq<int>, w: nat, starts: set<int>, s: nat)
    requires Terrain(h, w) && s < |h|
    ensures Terrain(Flooded(h, w, starts), w)
    ensures Drain(Flooded(h, w, starts), w, s) == Drain(h, w, s)
    ensures RimLevel(Flooded(h, w, starts), w, Drain(h, w, s)) == RimLevel(h, w, Drain(h, w, s))
  {
    var f, b := Flooded(h, w, starts), Drain(h, w, s);
    FloodedSameShape(h, w, starts);
    DrainSameShape(h, f, w, s);
    DrainIsPool(h, w, s);
    var s0 :| Pool(h, w, s0, b);
    forall i, j | i in b && Adjacent(w, |h|, i, j) && h[i] < h[j]
      ensures f[j] == h[j]
    {
      RimIsDry(h, w, starts, s0, b, i, j);
    }
    assert RimHeights(f, w, b) == RimHeights(h, w, b);
  }

  lemma WetStep(h: seq<int>, w: nat, starts: set<int>, s: nat, t: int)
    requires Terrain(h, w) && s < |h|
    ensures Wet(h, w, starts + {s}, t) <==> Wet(h, w, starts, t) || t in Drain(h, w, s)
  {
  }

  lemma FloodedAtStep(h: seq<int>, w: nat, starts: set<int>, s: nat, t: nat)
    requires Terrain(h, w) && s < |h| && t < |h|
    ensures FloodedAt(h, w, starts + {s}, t) ==
            if t in Drain(h, w, s) then Surface(h, w, Drain(h, w, s)) else FloodedAt(h, w, starts, t)
  {
    WetStep(h, w, starts, s, t);
    if t in Drain(h, w, s) {
      DrainStable(h, w, s, t);
    }
  }

  /** One more fill is one more start. */
  lemma FloodStep(h: seq<int>, w: nat, starts: set<int>, s: nat)
    requires Terrain(h, w) && s < |h|
    ensures Terrain(Flooded(h, w, starts), w)
    ensures Fill(Flooded(h, w, starts), w, Drain(h, w, s)) == Flooded(h, w, starts + {s})
  {
    FloodedPoolsStay(h, w, starts, s);
    var f, b := Flooded(h, w, starts), Drain(h, w, s);
    assert Surface(f, w, b) == Surface(h, w, b);
    forall t: nat | t < |h|
      ensures Fill(f, w, b)[t] == FloodedAt(h, w, starts + {s}, t)
    {
      FloodedAtStep(h, w, starts, s, t);
    }
  }
}
