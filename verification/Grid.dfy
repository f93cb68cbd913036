/** The square map: tiles are addressed by index, and the water search by coordinates. */
module Grid {

  datatype Node = Node(x: int, y: int)

  predicate InGrid(w: nat, p: Node) {
    0 <= p.x < w && 0 <= p.y < w
  }

  function Index(w: nat, p: Node): int {
    p.x + p.y * w
  }

  /** The coordinates of a tile index. */
  function At(w: nat, i: nat): Node
    requires w > 0
  {
    Node(i % w, i / w)
  }

  /** The neighbours of a tile in the order the water search looks at them: W, E, N, S. */
  function Step(p: Node, d: nat): Node
    requires d < 4
  {
    if d == 0 then Node(p.x - 1, p.y)
    else if d == 1 then Node(p.x + 1, p.y)
    else if d == 2 then Node(p.x, p.y - 1)
    else Node(p.x, p.y + 1)
  }

  /** Tiles i and j of a map of n tiles and width w share an edge. */
  predicate Adjacent(w: nat, n: nat, i: int, j: int) {
    && w > 0 && 0 <= i < n && 0 <= j < n
    && (j == i - w || j == i + w || (j == i - 1 && i % w != 0) || (j == i + 1 && j % w != 0))
  }

  lemma IndexBounds(w: nat, p: Node)
    requires InGrid(w, p)
    ensures 0 <= Index(w, p) < w * w
    ensures Index(w, p) % w == p.x
    ensures At(w, Index(w, p)) == p
  {
    RowBounds(w, p.y);
    DivModUnique(w, Index(w, p), p.y, p.x);
  }

  lemma MulBounds(d: int, w: nat)
    requires w > 0
    ensures d >= 1 ==> d * w >= w
    ensures d <= -1 ==> d * w + w <= 0
  {
  }

  /** Row `y` starts at index `y * w` and lies within the map. */
  lemma RowBounds(w: nat, y: nat)
    requires y < w
    ensures 0 <= y * w <= w * w - w && (y + 1) * w == y * w + w
  {
    MulBounds(y, w);
    MulBounds(w - 1 - y, w);
    assert (w - 1 - y) * w == w * w - w - y * w;
  }

  /** The index at which row `y` starts. */
  ghost function RowStart(w: nat, y: nat): nat {
    y * w
  }

  lemma RowStarts(w: nat, y: nat)
    ensures RowStart(w, 0) == 0 && RowStart(w, w) == w * w && RowStart(w, y + 1) == RowStart(w, y) + w
    ensures y < w ==> RowStart(w, y) + w <= w * w
  {
  }

  lemma IndexInRow(w: nat, x: nat, y: nat)
    requires x < w
    ensures x + y * w == RowStart(w, y) + x && At(w, RowStart(w, y) + x) == Node(x, y)
  {
    DivModUnique(w, x + y * w, y, x);
  }

  lemma DivModUnique(w: nat, i: int, q: int, r: int)
    requires w > 0 && 0 <= r < w && i == q * w + r
    ensures i / w == q && i % w == r
  {
    var q', r' := i / w, i % w;
    var d := q - q';
    assert i == q' * w + r';
    assert d * w == q * w - q' * w;
    MulBounds(d, w);
  }

  lemma AtBounds(w: nat, i: nat)
    requires w > 0 && i < w * w
    ensures InGrid(w, At(w, i))
    ensures Index(w, At(w, i)) == i
  {
  }

  /** What a step does to the index. */
  lemma StepIndex(w: nat, p: Node, d: nat)
    requires d < 4
    ensures Index(w, Step(p, d)) == Index(w, p) + (if d == 0 then -1 else if d == 1 then 1 else if d == 2 then -(w as int) else w)
  {
  }

  lemma StepAdjacent(w: nat, p: Node, d: nat)
    requires d < 4 && InGrid(w, p) && InGrid(w, Step(p, d))
    ensures Adjacent(w, w * w, Index(w, p), Index(w, Step(p, d)))
  {
    IndexBounds(w, p);
    IndexBounds(w, Step(p, d));
    StepIndex(w, p, d);
  }

  lemma AdjacentIsStep(w: nat, p: Node, j: int) returns (d: nat)
    requires InGrid(w, p) && Adjacent(w, w * w, Index(w, p), j)
    ensures d < 4 && InGrid(w, Step(p, d)) && Index(w, Step(p, d)) == j
  {
    IndexBounds(w, p);
    var i := Index(w, p);
    d := if j == i - 1 && i % w != 0 then 0 else if j == i + 1 && j % w != 0 then 1 else if j == i - w then 2 else 3;
    StepIndex(w, p, d);
    assert (w - 1) * w == w * w - w;
    if d == 1 && p.x + 1 == w {
      assert (p.y + 1) * w == p.y * w + w;
      DivModUnique(w, j, p.y + 1, 0);
    }
  }

  /** A tile set with a member and closed under edge adjacency is the whole map. */
  lemma {:induction false} ClosedIsEverything(w: nat, b: set<int>, s: int, t: int)
    requires 0 <= s < w * w && 0 <= t < w * w
    requires s in b
    requires forall i, j :: i in b && Adjacent(w, w * w, i, j) ==> j in b
    ensures t in b
  {
    var p, q := At(w, s), At(w, t);
    AtBounds(w, s);
    AtBounds(w, t);
    Walk(w, b, p, q);
  }

  /** Walks along the row and then along the column. */
  lemma {:induction false} Walk(w: nat, b: set<int>, p: Node, q: Node)
    requires InGrid(w, p) && InGrid(w, q)
    requires Index(w, p) in b
    requires forall i, j :: i in b && Adjacent(w, w * w, i, j) ==> j in b
    ensures Index(w, q) in b
    decreases (if p.x < q.x then q.x - p.x else p.x - q.x) + (if p.y < q.y then q.y - p.y else p.y - q.y)
  {
    if p != q {
      var d := if p.x > q.x then 0 else if p.x < q.x then 1 else if p.y > q.y then 2 else 3;
      StepAdjacent(w, p, d);
      Walk(w, b, Step(p, d), q);
    }
  }
}
