/** What the water search finds, said without the search: plateaus, pools and their rims.

    `h` is the seq of tile elevations of a map of width `w`.  */
module WaterPools {
  import opened Grid
  import opened Sets

  ghost predicate Square(h: seq<int>, w: nat) {
    w > 0 && |h| == w * w
  }

  ghost predicate Terrain(h: seq<int>, w: nat) {
    Square(h, w) && forall i :: 0 <= i < |h| ==> 0 <= h[i]
  }

  // ---- Connected components ------------------------------------------------------------

  /** `c` is closed under edge steps between tiles that carry the same tag. */
  ghost predicate SameClosed<T>(tag: seq<T>, w: nat, c: set<int>) {
    forall i, j :: i in c && Adjacent(w, |tag|, i, j) && tag[i] == tag[j] ==> j in c
  }

  /** `b` is the 4-connected component of equally labelled tiles that holds `s`: the least
      closed set with `s` in it. */
  ghost predicate Component<T(!new)>(tag: seq<T>, w: nat, s: int, b: set<int>) {
    && 0 <= s < |tag|
    && s in b
    && (forall i :: i in b ==> 0 <= i < |tag| && tag[i] == tag[s])
    && SameClosed(tag, w, b)
    && (forall c: set<int> :: s in c && SameClosed(tag, w, c) ==> b <= c)
  }

  /** A component can be named by any of its tiles. */
  lemma ComponentFromAny<T(!new)>(tag: seq<T>, w: nat, s: int, t: int, b: set<int>)
    requires Component(tag, w, s, b) && t in b
    ensures Component(tag, w, t, b)
  {
    forall c: set<int> | t in c && SameClosed(tag, w, c)
      ensures b <= c
    {
      if s !in c {
        assert SameClosed(tag, w, b - c) by {
          forall i, j | i in b - c && Adjacent(w, |tag|, i, j) && tag[i] == tag[j]
            ensures j in b - c
          {
            assert Adjacent(w, |tag|, j, i);
          }
        }
      }
    }
  }

  lemma ComponentUnique<T(!new)>(tag: seq<T>, w: nat, s: int, a: set<int>, b: set<int>)
    requires Component(tag, w, s, a) && Component(tag, w, s, b)
    ensures a == b
  {
  }

  ghost predicate Path<T>(tag: seq<T>, w: nat, path: seq<int>) {
    && (forall k :: 0 <= k < |path| ==> 0 <= path[k] < |tag|)
    && (forall k :: 0 <= k < |path| ==> tag[path[k]] == tag[path[0]])
    && (forall k :: 0 < k < |path| ==> Adjacent(w, |tag|, path[k - 1], path[k]))
  }

  /** The least closed set is path connectivity. */
  lemma ComponentIsPathConnected<T(!new)>(tag: seq<T>, w: nat, s: int, t: int, b: set<int>)
    requires Component(tag, w, s, b)
    ensures t in b <==> exists path: seq<int> :: |path| > 0 && path[0] == s && path[|path| - 1] == t && Path(tag, w, path)
  {
    var c := set i | i in b && exists path: seq<int> :: |path| > 0 && path[0] == s && path[|path| - 1] == i && Path(tag, w, path);
    assert s in c by {
      assert Path(tag, w, [s]);
      assert [s][0] == s && [s][|[s]| - 1] == s;
    }
    forall i, j | i in c && Adjacent(w, |tag|, i, j) && tag[i] == tag[j]
      ensures j in c
    {
      var path: seq<int> :| |path| > 0 && path[0] == s && path[|path| - 1] == i && Path(tag, w, path);
      var longer := path + [j];
      assert Path(tag, w, longer);
      assert longer[0] == s && longer[|longer| - 1] == j;
    }
    assert SameClosed(tag, w, c);
    if path: seq<int> :| |path| > 0 && path[0] == s && path[|path| - 1] == t && Path(tag, w, path) {
      PathStaysIn(tag, w, s, path, b, |path| - 1);
    }
  }

  lemma {:induction false} PathStaysIn<T(!new)>(tag: seq<T>, w: nat, s: int, path: seq<int>, b: set<int>, k: nat)
    requires Component(tag, w, s, b)
    requires Path(tag, w, path) && k < |path| && path[0] == s
    ensures path[k] in b
  {
    if k > 0 {
      PathStaysIn(tag, w, s, path, b, k - 1);
      assert Adjacent(w, |tag|, path[k - 1], path[k]);
      assert tag[path[k - 1]] == tag[path[0]];
    }
  }

  // ---- Pools and rims ------------------------------------------------------------------

  ghost predicate NoLower(h: seq<int>, w: nat, b: set<int>) {
    forall i, j :: i in b && Adjacent(w, |h|, i, j) ==> h[i] <= h[j]
  }

  /** A pool is a plateau with no lower tile next to it. */
  ghost predicate Pool(h: seq<int>, w: nat, s: int, b: set<int>) {
    Component(h, w, s, b) && NoLower(h, w, b)
  }

  /** The heights of the higher tiles next to `b`. */
  ghost function RimHeights(h: seq<int>, w: nat, b: set<int>): set<int> {
    set i, j | i in b && 0 <= j < |h| && Adjacent(w, |h|, i, j) && h[i] < h[j] :: h[j]
  }

  /** For a pool these are the heights of all the tiles that border it. */
  lemma RimIsBorder(h: seq<int>, w: nat, s: int, b: set<int>)
    requires Pool(h, w, s, b)
    ensures RimHeights(h, w, b) == set i, j | i in b && 0 <= j < |h| && Adjacent(w, |h|, i, j) && j !in b :: h[j]
  {
  }

  /** The value of the `waterLevel` reference, first `level`, once it has met the heights `s`;
      -1 stands for "no height yet". */
  ghost function Lowest(level: int, s: set<int>): int {
    if s == {} then level
    else if level == -1 || MinOf(s) <= level then MinOf(s)
    else level
  }

  /** Heights above a height that is itself met later do not matter. */
  lemma LowestAbsorbs(level: int, high: set<int>, s: set<int>, k: int)
    requires k in s && k >= 0
    requires forall x :: x in high ==> k < x
    ensures Lowest(Lowest(level, high), s) == Lowest(level, s)
  {
  }

  /** One more height met. */
  lemma LowestMeets(level: int, s: set<int>, x: int)
    requires x >= 0 && forall y :: y in s ==> y >= 0
    ensures var before := Lowest(level, s);
            Lowest(level, s + {x}) == if before == -1 then x else if x < before then x else before
  {
  }

  lemma LowestUnion(level: int, s: set<int>, t: set<int>)
    requires forall y :: y in s + t ==> y >= 0
    ensures Lowest(Lowest(level, s), t) == Lowest(level, s + t)
  {
  }

  /** The lowest height around `b`, or -1 when nothing around it is higher. */
  ghost function RimLevel(h: seq<int>, w: nat, b: set<int>): int {
    Lowest(-1, RimHeights(h, w, b))
  }

  // ---- The search ----------------------------------------------------------------------

  datatype Found = Basin(tiles: set<int>) | LeaksTo(node: Node)

  datatype Option<+T> = None | Some(value: T)

  /** The first neighbour of `p`, from direction `d` on, that is lower than `p`. */
  ghost function FirstLower(h: seq<int>, w: nat, p: Node, d: nat): (r: Option<Node>)
    requires Square(h, w) && InGrid(w, p) && d <= 4
    ensures r.Some? ==> InGrid(w, r.value) && Height(h, w, r.value) < Height(h, w, p)
    ensures r.Some? ==> exists e: nat :: e < 4 && Step(p, e) == r.value
    ensures r.None? ==> forall e: nat :: d <= e < 4 && InGrid(w, Step(p, e)) ==> Height(h, w, p) <= Height(h, w, Step(p, e))
    decreases 4 - d
  {
    if d == 4 then None
    else if InGrid(w, Step(p, d)) && Height(h, w, Step(p, d)) < Height(h, w, p) then Some(Step(p, d))
    else FirstLower(h, w, p, d + 1)
  }

  /** The unvisited neighbours of `p` at its own height among the first `d`, in order. */
  ghost function Level(h: seq<int>, w: nat, p: Node, visited: set<int>, d: nat): (r: seq<Node>)
    requires Square(h, w) && InGrid(w, p) && d <= 4
    ensures forall q :: q in r ==> InGrid(w, q) && Height(h, w, q) == Height(h, w, p)
    ensures forall q :: q in r ==> exists e: nat :: e < d && Step(p, e) == q
    ensures forall e: nat :: e < d && InGrid(w, Step(p, e)) && Height(h, w, Step(p, e)) == Height(h, w, p) ==>
                               Index(w, Step(p, e)) in visited || Step(p, e) in r
  {
    if d == 0 then []
    else
      var q := Step(p, d - 1);
      var before := Level(h, w, p, visited, d - 1);
      if Index(w, q) !in visited && InGrid(w, q) && Height(h, w, q) == Height(h, w, p)
      then before + [q] else before
  }

  ghost function Height(h: seq<int>, w: nat, p: Node): int
    requires Square(h, w) && InGrid(w, p)
  {
    IndexBounds(w, p);
    h[Index(w, p)]
  }

  ghost function Unvisited(h: seq<int>, visited: set<int>): set<int> {
    Upto(|h|) - visited
  }

  ghost predicate AllAt(h: seq<int>, w: nat, stack: seq<Node>, k: int)
    requires Square(h, w)
  {
    forall p :: p in stack ==> InGrid(w, p) && Height(h, w, p) == k
  }

  /** What the depth first search over one plateau, of height `k`, comes to. */
  ghost function Search(h: seq<int>, w: nat, stack: seq<Node>, visited: set<int>, k: int): (r: Found)
    requires Square(h, w) && AllAt(h, w, stack, k)
    ensures r.LeaksTo? ==> InGrid(w, r.node) && Height(h, w, r.node) < k
    decreases Unvisited(h, visited), |stack|
  {
    if stack == [] then Basin(visited)
    else
      var p, rest := stack[|stack| - 1], stack[..|stack| - 1];
      if Index(w, p) in visited then Search(h, w, rest, visited, k)
      else
        var lower := FirstLower(h, w, p, 0);
        if lower.Some? then LeaksTo(lower.value)
        else
          IndexBounds(w, p);
          assert Index(w, p) in Unvisited(h, visited);
          Search(h, w, rest + Level(h, w, p, visited, 4), visited + {Index(w, p)}, k)
  }

  /** Where the search that starts at tile `i` ends, restarts included. */
  ghost function Drain(h: seq<int>, w: nat, i: nat): set<int>
    requires Terrain(h, w) && i < |h|
    decreases h[i]
  {
    AtBounds(w, i);
    var found := Search(h, w, [At(w, i)], {}, h[i]);
    match found
    case Basin(tiles) => tiles
    case LeaksTo(q) => IndexBounds(w, q); Drain(h, w, Index(w, q))
  }

  /** The heights of the higher ones among the first `d` neighbours of `p`. */
  ghost function HigherAround(h: seq<int>, w: nat, p: Node, d: nat): set<int>
    requires Square(h, w) && InGrid(w, p) && d <= 4
  {
    if d == 0 then {}
    else
      var q := Step(p, d - 1);
      HigherAround(h, w, p, d - 1) +
      (if InGrid(w, q) && Height(h, w, q) > Height(h, w, p) then {Height(h, w, q)} else {})
  }

  lemma {:induction false} HigherAroundIs(h: seq<int>, w: nat, p: Node, d: nat)
    requires Square(h, w) && InGrid(w, p) && d <= 4
    ensures forall k :: k in HigherAround(h, w, p, d) <==>
              exists e: nat :: e < d && InGrid(w, Step(p, e)) && Height(h, w, Step(p, e)) > Height(h, w, p) && Height(h, w, Step(p, e)) == k
  {
    if d > 0 {
      HigherAroundIs(h, w, p, d - 1);
    }
  }

  lemma RimOfOneMore(h: seq<int>, w: nat, visited: set<int>, p: Node)
    requires Square(h, w) && InGrid(w, p)
    ensures RimHeights(h, w, visited + {Index(w, p)}) == RimHeights(h, w, visited) + HigherAround(h, w, p, 4)
  {
    var i := Index(w, p);
    IndexBounds(w, p);
    HigherAroundIs(h, w, p, 4);
    forall j | Adjacent(w, |h|, i, j) && h[i] < h[j]
      ensures h[j] in HigherAround(h, w, p, 4)
    {
      var d := AdjacentIsStep(w, p, j);
    }
    forall k | k in HigherAround(h, w, p, 4)
      ensures k in RimHeights(h, w, visited + {i})
    {
      var e: nat :| e < 4 && InGrid(w, Step(p, e)) && Height(h, w, Step(p, e)) > Height(h, w, p) && Height(h, w, Step(p, e)) == k;
      StepAdjacent(w, p, e);
      IndexBounds(w, Step(p, e));
    }
  }
}
