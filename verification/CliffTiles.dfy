/** Cliffs in coordinates, and what becomes of the two tiles of one. */
module CliffTiles {
  import opened Grid
  import opened Tiles
  import opened RampGenerator
  import opened CliffGenerator

  /** From tile (x, y) of the map, the tile at (x2, y2) beside it is at least `threshold` higher;
      like the program, (x2, y2) is a tile by its index alone.  */
  ghost predicate CliffFrom(tiles: seq<Tile>, w: nat, threshold: int, x: int, y: int, x2: int, y2: int) {
    && InGrid(w, Node(x, y)) && x - 1 <= x2 <= x + 1 && y - 1 <= y2 <= y + 1
    && 0 <= x + y * w < |tiles| && 0 <= x2 + y2 * w < |tiles|
    && tiles[x2 + y2 * w].elevation >= tiles[x + y * w].elevation + threshold
  }

  lemma CliffByIs(tiles: seq<Tile>, w: nat, threshold: int, x: int, y: int, k: nat)
    requires IsMap(tiles, w) && InGrid(w, Node(x, y)) && k < 9
    ensures w > 0 && 0 <= x + y * w < |tiles| && CellIndex(w, x + y * w, k) == x - 1 + k % 3 + (y - 1 + k / 3) * w
    ensures CliffBy(tiles, w, threshold, x + y * w, k) <==> CliffFrom(tiles, w, threshold, x, y, x - 1 + k % 3, y - 1 + k / 3)
  {
    IndexBounds(w, Node(x, y));
  }

  /** Tile `t` is the upper or the lower tile of a cliff of the map. */
  ghost predicate AtCliff(tiles: seq<Tile>, w: nat, threshold: int, t: int) {
    exists x, y, x2, y2 :: CliffFrom(tiles, w, threshold, x, y, x2, y2) && (t == x + y * w || t == x2 + y2 * w)
  }

  lemma OnCliffIs(tiles: seq<Tile>, w: nat, threshold: int, t: int)
    requires w > 0 && IsMap(tiles, w)
    ensures OnCliff(tiles, w, threshold, |tiles|, 0, t) <==> AtCliff(tiles, w, threshold, t)
  {
    hide CliffBy, CliffFrom, CellIndex;
    if OnCliff(tiles, w, threshold, |tiles|, 0, t) {
      var i: nat :| i < |tiles| && OfCliff(tiles, w, threshold, i, 9, t);
      var c: nat :| c < 9 && CliffBy(tiles, w, threshold, i, c) && (t == i || t == CellIndex(w, i, c));
      AtTile(tiles, w, i);
      CliffByIs(tiles, w, threshold, At(w, i).x, At(w, i).y, c);
      assert CliffFrom(tiles, w, threshold, At(w, i).x, At(w, i).y, At(w, i).x - 1 + c % 3, At(w, i).y - 1 + c / 3);
    }
    if x, y, x2, y2 :| CliffFrom(tiles, w, threshold, x, y, x2, y2) && (t == x + y * w || t == x2 + y2 * w) {
      CliffIsCell(tiles, w, threshold, x, y, x2, y2);
      var c: nat := 3 * (y2 - y + 1) + (x2 - x + 1);
      CliffByIs(tiles, w, threshold, x, y, c);
      assert OfCliff(tiles, w, threshold, x + y * w, 9, t);
    }
  }

  lemma AtTile(tiles: seq<Tile>, w: nat, i: nat)
    requires w > 0 && IsMap(tiles, w) && i < |tiles|
    ensures InGrid(w, At(w, i)) && At(w, i).x + At(w, i).y * w == i
  {
    AtBounds(w, i);
  }

  lemma CliffIsCell(tiles: seq<Tile>, w: nat, threshold: int, x: int, y: int, x2: int, y2: int)
    requires CliffFrom(tiles, w, threshold, x, y, x2, y2)
    ensures InGrid(w, Node(x, y)) && -1 <= x2 - x <= 1 && -1 <= y2 - y <= 1
    ensures var c := 3 * (y2 - y + 1) + (x2 - x + 1); 0 <= c < 9 && x - 1 + c % 3 == x2 && y - 1 + c / 3 == y2
  {
  }

  /** One look at a tile beside (x, y): a cliff draws two random numbers and makes rock of both
      tiles, or dirt if the first number is 1 modulo 20.  Anything else changes nothing.  */
  lemma VisitIs(c: Carving, w: nat, i: nat, e: int, p: Node, threshold: int, rand: nat -> nat, t: nat)
    requires IsMap(c.tiles, w) && i < |c.tiles| && t < |c.tiles|
    ensures var r, j := Visited(c, w, i, e, p, threshold, rand), p.x + p.y * w;
            && |r.tiles| == |c.tiles|
            && if 0 <= j < |c.tiles| && c.tiles[j].elevation >= e + threshold then
                 && r.drawn == c.drawn + 2
                 && r.tiles[t].terrType == (if t != i && t != j then c.tiles[t].terrType else if rand(c.drawn) % 20 == 1 then Dirt else Rock)
                 && (rand(c.drawn) % 20 != 1 ==> r.tiles[t] == c.tiles[t].(terrType := r.tiles[t].terrType))
               else r == c
  {
    hide Ramped, IsMap;
    VisitTurns(c, w, i, e, p, threshold, rand, t);
  }

  /** On that roll a ramp is cut from the upper tile, of width 1 to 5 by the second number. */
  lemma VisitCutsRamp(c: Carving, w: nat, i: nat, e: int, p: Node, threshold: int, rand: nat -> nat, t: nat)
    requires IsMap(c.tiles, w) && i < |c.tiles| && t < |c.tiles|
    requires 0 <= p.x + p.y * w < |c.tiles| && c.tiles[p.x + p.y * w].elevation >= e + threshold && rand(c.drawn) % 20 == 1
    ensures var rocky := TurnBoth(c.tiles, i, p.x + p.y * w, Rock);
            var r, cut := Visited(c, w, i, e, p, threshold, rand), Ramped(rocky, w, p.x, p.y, rand(c.drawn + 1) % 5 + 1);
            |r.tiles| == |cut| == |c.tiles| && r.tiles[t] == cut[t].(terrType := r.tiles[t].terrType)
  {
    hide Ramped;
    SameMapSize(c.tiles, Ramped(TurnBoth(c.tiles, i, p.x + p.y * w, Rock), w, p.x, p.y, rand(c.drawn + 1) % 5 + 1), w);
  }
}
