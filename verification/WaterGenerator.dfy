/** The water stage of world generation, on the world array. */
module WaterGenerator {
  import opened Grid
  import opened Tiles
  import opened Sets
  import opened WaterPools
  import opened Flooding

  /** The neighbour loop of the search at tile `observe`: the tiles it pushes, the updated
      water level and the lower tile it leaks into, if there is one; `met` is the heights that
      went into the water level.  */
  method LookAround(world: array<Tile>, w: nat, observe: Node, visited: set<int>, waterLevel: int)
    returns (pushed: seq<Node>, level: int, leak: Option<Node>, ghost met: set<int>)
    requires Square(Elevations(world[..]), w) && InGrid(w, observe)
    requires forall i :: i in visited ==> 0 <= i < world.Length && world[i].elevation == Height(Elevations(world[..]), w, observe)
    ensures leak == FirstLower(Elevations(world[..]), w, observe, 0)
    ensures leak.None? ==> pushed == Level(Elevations(world[..]), w, observe, visited, 4)
    ensures level == Lowest(waterLevel, met)
    ensures forall k :: k in met ==> k > Height(Elevations(world[..]), w, observe)
    ensures leak.None? ==> met == HigherAround(Elevations(world[..]), w, observe, 4)
  {
    hide *;
    ghost var h := Elevations(world[..]);
    pushed, level, leak, met := [], waterLevel, None, {};
    NoneLookedAt(h, w, observe, visited, waterLevel);
    IndexOnMap(h, w, observe);
    var currentHeight := world[observe.x + observe.y * w].elevation;
    for d := 0 to 4
      invariant pushed == Level(h, w, observe, visited, d)
      invariant FirstLower(h, w, observe, 0) == FirstLower(h, w, observe, d)
      invariant met == HigherAround(h, w, observe, d)
      invariant forall k: int :: k in met ==> k > currentHeight
      invariant leak == None && level == Lowest(waterLevel, met)
    {
      OneMoreLookedAt(h, w, observe, visited, d);
      pushed, level, leak, met := LookAt(world, w, observe, currentHeight, Step(observe, d), visited, waterLevel, pushed, level, met);
      if leak != None {
        return;
      }
    }
  }

  lemma NoneLookedAt(h: seq<int>, w: nat, p: Node, visited: set<int>, waterLevel: int)
    requires Square(h, w) && InGrid(w, p)
    ensures Lowest(waterLevel, {}) == waterLevel
    ensures Level(h, w, p, visited, 0) == [] && HigherAround(h, w, p, 0) == {} && FirstLower(h, w, p, 4) == None
  {
  }

  lemma OneMoreLookedAt(h: seq<int>, w: nat, p: Node, visited: set<int>, d: nat)
    requires Square(h, w) && InGrid(w, p) && d < 4
    ensures var q := Step(p, d);
            && FirstLower(h, w, p, d) == (if InGrid(w, q) && Height(h, w, q) < Height(h, w, p) then Some(q) else FirstLower(h, w, p, d + 1))
            && Level(h, w, p, visited, d + 1) == Level(h, w, p, visited, d) +
                 (if Index(w, q) !in visited && InGrid(w, q) && Height(h, w, q) == Height(h, w, p) then [q] else [])
            && HigherAround(h, w, p, d + 1) == HigherAround(h, w, p, d) +
                 (if InGrid(w, q) && Height(h, w, q) > Height(h, w, p) then {Height(h, w, q)} else {})
  {
    hide Height, Square, Index, Step;
  }

  lemma IndexOnMap(h: seq<int>, w: nat, p: Node)
    requires Square(h, w)
    ensures p.x + p.y * w == Index(w, p)
    ensures InGrid(w, p) ==> 0 <= Index(w, p) < |h| && h[Index(w, p)] == Height(h, w, p)
  {
    if InGrid(w, p) {
      IndexBounds(w, p);
    }
  }

  /** The body of that loop, at one neighbour. */
  method LookAt(world: array<Tile>, w: nat, observe: Node, currentHeight: nat, adjacent: Node, visited: set<int>,
                ghost waterLevel: int, pushed: seq<Node>, level: int, ghost met: set<int>)
    returns (pushed': seq<Node>, level': int, leak: Option<Node>, ghost met': set<int>)
    requires Square(Elevations(world[..]), w) && InGrid(w, observe) && currentHeight == Height(Elevations(world[..]), w, observe)
    requires forall i :: i in visited ==> 0 <= i < world.Length && world[i].elevation == currentHeight
    requires level == Lowest(waterLevel, met) && forall k: int :: k in met ==> k > currentHeight
    ensures leak == if InGrid(w, adjacent) && Height(Elevations(world[..]), w, adjacent) < currentHeight then Some(adjacent) else None
    ensures pushed' == if Index(w, adjacent) !in visited && InGrid(w, adjacent) && Height(Elevations(world[..]), w, adjacent) == currentHeight
                       then pushed + [adjacent] else pushed
    ensures met' == if InGrid(w, adjacent) && Height(Elevations(world[..]), w, adjacent) > currentHeight
                    then met + {Height(Elevations(world[..]), w, adjacent)} else met
    ensures level' == Lowest(waterLevel, met')
  {
    hide Lowest, Square, Height, Index;
    pushed', level', leak, met' := pushed, level, None, met;
    var adjacentIndex := adjacent.x + adjacent.y * w;
    IndexOnMap(Elevations(world[..]), w, adjacent);
    if adjacentIndex !in visited && InGrid(w, adjacent) {
      var adjacentHeight := world[adjacentIndex].elevation;
      if adjacentHeight == currentHeight {
        pushed' := pushed + [adjacent];
      } else if adjacentHeight < currentHeight {
        leak := Some(adjacent);
      } else {
        LowestMeets(waterLevel, met, adjacentHeight);
        level' := if level == -1 || adjacentHeight < level then adjacentHeight else level;
        met' := met + {adjacentHeight};
      }
    }
  }

  /** Depth first search from (x, y) over tiles of one height, restarted in the first lower
      neighbour it meets.  `waterLevel` is the reference parameter: its value on entry and, as
      `level`, on return.  */
  method GenerateWaterArea(world: array<Tile>, w: nat, x: int, y: int, waterLevel: int)
    returns (visited: set<int>, level: int)
    requires w > 0 && world.Length == w * w && InGrid(w, Node(x, y))
    ensures Terrain(Elevations(world[..]), w)
    ensures visited == Drain(Elevations(world[..]), w, Start(world[..], w, x, y))
    ensures IsPool(Elevations(world[..]), w, visited)
    ensures level == Lowest(waterLevel, RimHeights(Elevations(world[..]), w, visited))
    decreases Elevations(world[..])[Start(world[..], w, x, y)]
  {
    hide *;
    ghost var h := Elevations(world[..]);
    ghost var s := Start(world[..], w, x, y);
    FromStart(h, w, x, y);
    DrainIsPool(h, w, s);
    visited, level := {}, waterLevel;
    NothingVisited(h, w, waterLevel);
    var searchStack := [Node(x, y)];
    while searchStack != []
      invariant SearchesOn(h, w, s, searchStack, visited)
      invariant level == Lowest(waterLevel, RimHeights(h, w, visited))
      decreases Unvisited(h, visited), |searchStack|
    {
      var observe, rest := searchStack[|searchStack| - 1], searchStack[..|searchStack| - 1];
      var observeIndex := observe.x + observe.y * w;
      IndexOnMap(h, w, observe);
      TopOfStack(h, w, s, searchStack, visited);
      if observeIndex in visited {
        SkipKeeps(h, w, s, searchStack, visited);
        searchStack := rest;
      } else {
        var pushed, raised, leak, met := LookAround(world, w, observe, visited, level);
        VisitKeeps(h, w, s, searchStack, visited, waterLevel, level, met);
        if leak.Some? {
          LeakRim(h, w, s, observe, leak.value, RimHeights(h, w, visited) + met, waterLevel);
          visited, level := GenerateWaterArea(world, w, leak.value.x, leak.value.y, raised);
          return;
        }
        visited, level, searchStack := visited + {observeIndex}, raised, rest + pushed;
      }
    }
    SearchEnds(h, w, s, visited);
  }

  lemma NothingVisited(h: seq<int>, w: nat, waterLevel: int)
    requires Square(h, w)
    ensures Lowest(waterLevel, RimHeights(h, w, {})) == waterLevel
  {
    assert RimHeights(h, w, {}) == {};
  }

  lemma TopOfStack(h: seq<int>, w: nat, s: int, stack: seq<Node>, visited: set<int>)
    requires SearchesOn(h, w, s, stack, visited) && stack != []
    ensures var p := stack[|stack| - 1]; InGrid(w, p) && Height(h, w, p) == h[s]
    ensures forall i :: i in visited ==> 0 <= i < |h| && h[i] == h[s]
  {
  }

  /** The search of the plateau of tile `s`, half way through. */
  ghost predicate SearchesOn(h: seq<int>, w: nat, s: int, stack: seq<Node>, visited: set<int>) {
    && Explored(h, w, s, stack, visited) && AllAt(h, w, [At(w, s)], h[s])
    && Search(h, w, stack, visited, h[s]) == Search(h, w, [At(w, s)], {}, h[s])
  }

  lemma SearchEnds(h: seq<int>, w: nat, s: int, visited: set<int>)
    requires Terrain(h, w) && SearchesOn(h, w, s, [], visited)
    ensures 0 <= s < |h| && Drain(h, w, s) == visited
  {
  }

  lemma SearchLeaks(h: seq<int>, w: nat, s: int, q: Node)
    requires Terrain(h, w) && 0 <= s < |h| && AllAt(h, w, [At(w, s)], h[s])
    requires Search(h, w, [At(w, s)], {}, h[s]) == LeaksTo(q)
    ensures InGrid(w, q) && 0 <= Index(w, q) < |h| && h[Index(w, q)] < h[s]
    ensures Drain(h, w, s) == Drain(h, w, Index(w, q))
  {
    IndexBounds(w, q);
  }

  /** The search goes on as before when a visited tile is popped. */
  lemma SkipKeeps(h: seq<int>, w: nat, s: int, stack: seq<Node>, visited: set<int>)
    requires SearchesOn(h, w, s, stack, visited) && stack != [] && Index(w, stack[|stack| - 1]) in visited
    ensures SearchesOn(h, w, s, stack[..|stack| - 1], visited)
  {
    ExploredSkip(h, w, s, stack, visited);
  }

  /** What visiting a tile does to the search and to the water level: a leak ends the search, and
      otherwise it goes on with the tile visited and its level neighbours pushed.  */
  lemma VisitKeeps(h: seq<int>, w: nat, s: int, stack: seq<Node>, visited: set<int>, waterLevel: int, level: int, met: set<int>)
    requires SearchesOn(h, w, s, stack, visited) && stack != [] && Index(w, stack[|stack| - 1]) !in visited
    requires Terrain(h, w) && level == Lowest(waterLevel, RimHeights(h, w, visited))
    requires forall k :: k in met ==> k > Height(h, w, stack[|stack| - 1])
    ensures var p := stack[|stack| - 1];
            match FirstLower(h, w, p, 0)
            case Some(q) =>
              && InGrid(w, q) && 0 <= Index(w, q) < |h| && h[Index(w, q)] < h[s] && Leak(h, w, s, Index(w, p), q)
              && Drain(h, w, s) == Drain(h, w, Index(w, q))
            case None =>
              var stack', visited' := stack[..|stack| - 1] + Level(h, w, p, visited, 4), visited + {Index(w, p)};
              && SearchesOn(h, w, s, stack', visited')
              && Unvisited(h, visited') < Unvisited(h, visited)
              && RimHeights(h, w, visited') == RimHeights(h, w, visited) + HigherAround(h, w, p, 4)
    ensures Lowest(level, met) == Lowest(waterLevel, RimHeights(h, w, visited) + met)
    ensures forall k :: k in RimHeights(h, w, visited) + met ==> h[s] < k
  {
    var p := stack[|stack| - 1];
    IndexBounds(w, p);
    LowestUnion(waterLevel, RimHeights(h, w, visited), met);
    assert Index(w, p) in Unvisited(h, visited);
    if FirstLower(h, w, p, 0).Some? {
      LeakFound(h, w, s, stack, visited);
      SearchLeaks(h, w, s, FirstLower(h, w, p, 0).value);
    } else {
      ExploredVisit(h, w, s, stack, visited);
      RimOfOneMore(h, w, visited, p);
    }
  }

  ghost function Start(tiles: seq<Tile>, w: nat, x: int, y: int): (s: nat)
    requires |tiles| == w * w && InGrid(w, Node(x, y))
    ensures s < |tiles| && s == Index(w, Node(x, y))
  {
    IndexBounds(w, Node(x, y));
    Index(w, Node(x, y))
  }

  lemma FromStart(h: seq<int>, w: nat, x: int, y: int)
    requires w > 0 && |h| == w * w && (forall i :: 0 <= i < |h| ==> 0 <= h[i]) && InGrid(w, Node(x, y))
    ensures Terrain(h, w) && 0 <= Index(w, Node(x, y)) < |h|
    ensures At(w, Index(w, Node(x, y))) == Node(x, y)
    ensures SearchesOn(h, w, Index(w, Node(x, y)), [Node(x, y)], {})
  {
    IndexBounds(w, Node(x, y));
    ExploredStart(h, w, Index(w, Node(x, y)));
  }

  /** What was gathered around the abandoned plateau is above the rim of the pool below. */
  lemma LeakRim(h: seq<int>, w: nat, s: int, p: Node, q: Node, met: set<int>, waterLevel: int)
    requires Terrain(h, w) && 0 <= s < |h| && InGrid(w, p) && InGrid(w, q)
    requires Leak(h, w, s, Index(w, p), q) && 0 <= Index(w, q) < |h|
    requires forall k :: k in met ==> h[s] < k
    ensures var rim := RimHeights(h, w, Drain(h, w, Index(w, q)));
            Lowest(Lowest(waterLevel, met), rim) == Lowest(waterLevel, rim)
  {
    IndexBounds(w, p);
    assert Adjacent(w, |h|, Index(w, q), Index(w, p));
    var k := RimBelow(h, w, Index(w, q), Index(w, p));
    LowestAbsorbs(waterLevel, met, RimHeights(h, w, Drain(h, w, Index(w, q))), k);
  }

  // ---- Filling -------------------------------------------------------------------------

  ghost function StartSet(w: nat, starts: seq<Node>): set<int> {
    set p | p in starts :: Index(w, p)
  }

  /** `after` is `before` flooded from `starts`: wet tiles are water at the surface of their
      pool, and nothing else differs.  */
  ghost predicate IsFlooded(before: seq<Tile>, after: seq<Tile>, w: nat, starts: set<int>)
    requires Square(Elevations(before), w)
  {
    && |after| == |before|
    && Elevations(after) == Flooded(Elevations(before), w, starts)
    && forall t :: 0 <= t < |before| ==>
         after[t] == before[t].(elevation := after[t].elevation,
                                terrType := if Wet(Elevations(before), w, starts, t) then Water else before[t].terrType)
  }

  /** For each wet tile the number of tiles of its pool. */
  ghost function PoolSizes(h: seq<int>, w: nat, starts: set<int>): map<int, int>
    requires Terrain(h, w)
  {
    map t | t in Upto(|h|) && Wet(h, w, starts, t) :: |Drain(h, w, t)|
  }

  ghost function SizeOfEach(b: set<int>): map<int, int> {
    map t | t in b :: |b|
  }

  /** Writes one pool into the world and into the size map. */
  method FillPool(world: array<Tile>, waterTiles: set<int>, elevation: ubyte, sizes: map<int, int>)
    returns (sizes': map<int, int>)
    requires forall t :: t in waterTiles ==> 0 <= t < world.Length
    modifies world
    ensures forall t :: 0 <= t < world.Length ==>
              world[t] == if t in waterTiles then old(world[t]).(terrType := Water, elevation := elevation) else old(world[t])
    ensures sizes' == sizes + SizeOfEach(waterTiles)
  {
    sizes' := sizes;
    var rest := waterTiles;
    while rest != {}
      invariant rest <= waterTiles
      invariant forall t :: 0 <= t < world.Length ==>
                  world[t] == if t in waterTiles - rest then old(world[t]).(terrType := Water, elevation := elevation) else old(world[t])
      invariant sizes' == sizes + map t | t in waterTiles - rest :: |waterTiles|
      decreases |rest|
    {
      var tileIndex := Pick(rest);
      world[tileIndex] := world[tileIndex].(terrType := Water, elevation := elevation);
      sizes' := sizes'[tileIndex := |waterTiles|];
      rest := rest - {tileIndex};
    }
  }

  /** One round of the loop below, on a map flooded from the starts `done` so far. */
  method GenerateOneWater(world: array<Tile>, w: nat, p: Node, sizes: map<int, int>, ghost before: seq<Tile>, ghost done: set<int>)
    returns (sizes': map<int, int>)
    requires w > 0 && world.Length == w * w && InGrid(w, p)
    requires Square(Elevations(before), w) && IsFlooded(before, world[..], w, done)
    requires sizes == PoolSizes(Elevations(before), w, done)
    modifies world
    ensures IsFlooded(before, world[..], w, done + {Index(w, p)})
    ensures sizes' == PoolSizes(Elevations(before), w, done + {Index(w, p)})
  {
    ghost var h, now, s := Elevations(before), world[..], Start(before, w, p.x, p.y);
    var waterTiles, waterLevel := GenerateWaterArea(world, w, p.x, p.y, -1);
    FloodedPoolsStay(h, w, done, s);
    PoolBounds(now, w, s);
    if waterLevel == -1 {
      waterLevel := 0;
    }
    var elevation: ubyte := if waterLevel > 0 then waterLevel - 1 else waterLevel;
    RoundCounts(h, w, done, s);
    sizes' := FillPool(world, waterTiles, elevation, sizes);
    RoundFloods(before, now, world[..], w, done, s);
  }

  /** All pools; `starts` are the random tiles, one for each of the `poolCount` rounds. */
  method GenerateWorldWaters(world: array<Tile>, w: nat, starts: seq<Node>) returns (tilePoolSizeMapping: map<int, int>)
    requires w > 0 && world.Length == w * w
    requires forall p :: p in starts ==> InGrid(w, p)
    modifies world
    ensures IsFlooded(old(world[..]), world[..], w, StartSet(w, starts))
    ensures tilePoolSizeMapping == PoolSizes(Elevations(old(world[..])), w, StartSet(w, starts))
  {
    ghost var before := world[..];
    ghost var h := Elevations(before);
    tilePoolSizeMapping := map[];
    assert IsFlooded(before, world[..], w, {});
    for i := 0 to |starts|
      invariant IsFlooded(before, world[..], w, StartSet(w, starts[..i]))
      invariant tilePoolSizeMapping == PoolSizes(h, w, StartSet(w, starts[..i]))
    {
      assert StartSet(w, starts[..i + 1]) == StartSet(w, starts[..i]) + {Index(w, starts[i])};
      tilePoolSizeMapping := GenerateOneWater(world, w, starts[i], tilePoolSizeMapping, before, StartSet(w, starts[..i]));
    }
    assert starts[..|starts|] == starts;
  }

  lemma PoolBounds(tiles: seq<Tile>, w: nat, s: nat)
    requires Square(Elevations(tiles), w) && s < |tiles|
    ensures forall t :: t in Drain(Elevations(tiles), w, s) ==> 0 <= t < |tiles|
    ensures -1 <= RimLevel(Elevations(tiles), w, Drain(Elevations(tiles), w, s)) < 256
  {
    DrainIsPool(Elevations(tiles), w, s);
  }

  /** Writing the pool found from `s` turns the map flooded from `starts` into the one flooded
      from `starts` and `s`.  */
  lemma RoundFloods(before: seq<Tile>, now: seq<Tile>, next: seq<Tile>, w: nat, starts: set<int>, s: nat)
    requires Square(Elevations(before), w) && s < |before| && IsFlooded(before, now, w, starts) && |next| == |now|
    requires var b := Drain(Elevations(now), w, s);
             forall t :: 0 <= t < |now| ==>
               next[t] == if t in b then now[t].(terrType := Water, elevation := next[t].elevation) else now[t]
    requires var b := Drain(Elevations(now), w, s);
             forall t :: 0 <= t < |now| && t in b ==> next[t].elevation == Surface(Elevations(now), w, b)
    ensures IsFlooded(before, next, w, starts + {s})
  {
    var h, f := Elevations(before), Elevations(now);
    FloodedPoolsStay(h, w, starts, s);
    FloodStep(h, w, starts, s);
    assert Elevations(next) == Fill(f, w, Drain(f, w, s));
    forall t | 0 <= t < |before|
      ensures Wet(h, w, starts + {s}, t) <==> Wet(h, w, starts, t) || t in Drain(h, w, s)
    {
      WetStep(h, w, starts, s, t);
    }
  }

  lemma RoundCounts(h: seq<int>, w: nat, starts: set<int>, s: nat)
    requires Terrain(h, w) && s < |h|
    ensures PoolSizes(h, w, starts + {s}) == PoolSizes(h, w, starts) + SizeOfEach(Drain(h, w, s))
  {
    hide Drain, Wet, PoolSizes;
    var sizes, sum := PoolSizes(h, w, starts + {s}), PoolSizes(h, w, starts) + SizeOfEach(Drain(h, w, s));
    forall t
      ensures t in sizes <==> t in sum
      ensures t in sizes ==> sizes[t] == sum[t]
    {
      RoundCountsAt(h, w, starts, s, t);
    }
  }

  lemma RoundCountsAt(h: seq<int>, w: nat, starts: set<int>, s: nat, t: int)
    requires Terrain(h, w) && s < |h|
    ensures t in PoolSizes(h, w, starts + {s}) <==> t in PoolSizes(h, w, starts) || t in Drain(h, w, s)
    ensures t in Drain(h, w, s) ==> PoolSizes(h, w, starts + {s})[t] == |Drain(h, w, s)|
    ensures t in PoolSizes(h, w, starts) ==> PoolSizes(h, w, starts + {s})[t] == PoolSizes(h, w, starts)[t]
  {
    WetStep(h, w, starts, s, t);
    if t in Drain(h, w, s) {
      DrainStable(h, w, s, t);
    }
  }
}
