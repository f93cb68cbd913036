/** What the updates of one object come to, turn after turn, in coordinates and tile fields. */
module ObjectTurns {
  import opened Tiles
  import opened Objects

  // ---- One turn ------------------------------------------------------------------------

  /** The steps of the actions 1 to 8: N is one row up, and E one column on. */
  function StepX(id: int): int {
    if id == 2 || id == 3 || id == 4 then 1 else if id == 6 || id == 7 || id == 8 then -1 else 0
  }

  function StepZ(id: int): int {
    if id == 8 || id == 1 || id == 2 then -1 else if id == 4 || id == 5 || id == 6 then 1 else 0
  }

  function Facing(id: int): Direction
    requires 1 <= id <= 8
  {
    [Direction.N, Direction.NE, Direction.E, Direction.SE, Direction.S, Direction.SW, Direction.W, Direction.NW][id - 1]
  }

  predicate AboutToMove(o: Obj) {
    o.queue != [] && 1 <= o.queue[0] <= 8
  }

  /** The index a move leads to. */
  function Goal(o: Obj, w: nat): int
    requires AboutToMove(o)
  {
    o.x + StepX(o.queue[0]) + (o.z + StepZ(o.queue[0])) * w
  }

  predicate Free(tiles: seq<Tile>, index: int) {
    0 <= index < |tiles| && tiles[index].thingId == 0
  }

  /** The tile of an object that says what it is doing. */
  function Showing(t: Tile, action: TileAction, facing: Direction): Tile {
    t.(action := action, facing := facing)
  }

  /** A turn of a move to a tile that is off the map or taken: it fails, the action is popped
      and the progress is lost.  */
  lemma BlockedMove(o: Obj, tiles: seq<Tile>, w: nat, gain: ubyte -> real)
    requires Placed(tiles, w, o) && QueueOk(o) && AboutToMove(o) && !Free(tiles, Goal(o, w))
    ensures UpdateObj(o, tiles, w, gain) == Outcome(o.(progress := 0.0, queue := o.queue[1..]), tiles, Failure)
  {
  }

  /** A turn of a move that is not finished: the tile shows it, and the progress grows. */
  lemma PendingMove(o: Obj, tiles: seq<Tile>, w: nat, gain: ubyte -> real)
    requires Placed(tiles, w, o) && QueueOk(o) && AboutToMove(o) && Free(tiles, Goal(o, w)) && o.progress < 1.0
    ensures var t := Showing(tiles[Pos(w, o)], TileAction.Moving, Facing(o.queue[0]));
            UpdateObj(o, tiles, w, gain) ==
            Outcome(o.(state := t, objType := t.thingId, progress := o.progress + gain(t.thingId)), tiles[Pos(w, o) := t], Pending)
  {
  }

  /** The last turn of a move: the object is one step on, the thing on its tile went with it,
      and the action is popped.  */
  lemma LastOfMove(o: Obj, tiles: seq<Tile>, w: nat, gain: ubyte -> real)
    requires Placed(tiles, w, o) && QueueOk(o) && AboutToMove(o) && Free(tiles, Goal(o, w)) && o.progress >= 1.0 && Goal(o, w) != Pos(w, o)
    ensures var r, from, to := UpdateObj(o, tiles, w, gain), Pos(w, o), Goal(o, w);
            && |r.tiles| == |tiles|
            && r.tiles[to] == tiles[to].(thingId := tiles[from].thingId, action := tiles[from].action, facing := tiles[from].facing)
            && r.tiles[from] == tiles[from].(thingId := 0, action := TileAction.Idle, facing := Direction.N)
            && (forall t :: 0 <= t < |tiles| && t != from && t != to ==> r.tiles[t] == tiles[t])
            && r.obj == o.(x := o.x + StepX(o.queue[0]), z := o.z + StepZ(o.queue[0]), state := r.tiles[to], progress := 0.0, queue := o.queue[1..])
  {
  }

  /** A turn with nothing queued, or with the idle action in front: the tile is idle, and the
      object takes itself to be at (0, 0).  */
  lemma IdleTurn(o: Obj, tiles: seq<Tile>, w: nat, gain: ubyte -> real)
    requires Placed(tiles, w, o) && QueueOk(o) && (o.queue == [] || o.queue[0] == 0)
    ensures var t := tiles[Pos(w, o)].(action := TileAction.Idle);
            UpdateObj(o, tiles, w, gain) ==
            Outcome(o.(x := 0, z := 0, state := t, queue := if o.queue == [] then [] else o.queue[1..]), tiles[Pos(w, o) := t], Success)
  {
  }

  predicate AboutToLift(o: Obj) {
    o.queue != [] && 9 <= o.queue[0] <= 10
  }

  function LiftFacing(id: int): Direction {
    if id == 9 then Direction.N else Direction.S
  }

  lemma PendingLift(o: Obj, tiles: seq<Tile>, w: nat, gain: ubyte -> real)
    requires Placed(tiles, w, o) && QueueOk(o) && AboutToLift(o) && o.progress < 1.0
    ensures var t := Showing(tiles[Pos(w, o)], TileAction.MovingVertically, LiftFacing(o.queue[0]));
            UpdateObj(o, tiles, w, gain) ==
            Outcome(o.(state := t, objType := t.thingId, progress := o.progress + gain(t.thingId)), tiles[Pos(w, o) := t], Pending)
  {
  }

  // ---- Turn after turn -----------------------------------------------------------------

  /** `n` turns of one object, on tiles that nothing else changes in between. */
  ghost function Updates(o: Obj, tiles: seq<Tile>, w: nat, gain: ubyte -> real, n: nat): (r: Outcome)
    requires Placed(tiles, w, o) && QueueOk(o)
    ensures |r.tiles| == |tiles| && Placed(r.tiles, w, r.obj) && QueueOk(r.obj)
  {
    if n == 0 then Outcome(o, tiles, Pending)
    else
      var before := Updates(o, tiles, w, gain, n - 1);
      UpdateObj(before.obj, before.tiles, w, gain)
  }

  /** The progress of `n` turns that add `g` each. */
  function Progress(n: nat, g: real): real {
    n as real * g
  }

  lemma OneMoreTurn(n: nat, g: real)
    ensures Progress(0, g) == 0.0 && Progress(n + 1, g) == Progress(n, g) + g
  {
  }

  lemma {:induction false} NoProgressBackwards(n: nat, g: real)
    requires g <= 0.0
    ensures Progress(n, g) <= 0.0
  {
    hide Progress;
    OneMoreTurn(n, g);
    if n > 0 {
      NoProgressBackwards(n - 1, g);
      OneMoreTurn(n - 1, g);
    }
  }

  lemma LessBefore(n: nat, g: real)
    requires Progress(n + 1, g) < 1.0
    ensures Progress(n, g) < 1.0
  {
    hide Progress;
    OneMoreTurn(n, g);
    if g < 0.0 {
      NoProgressBackwards(n, g);
    }
  }

  /** The state of an object, and of its tile, after `n` turns that show an action. */
  ghost predicate Waited(o: Obj, tiles: seq<Tile>, w: nat, r: Outcome, n: nat, g: real, action: TileAction, facing: Direction)
    requires Placed(tiles, w, o)
  {
    var t := Showing(tiles[Pos(w, o)], action, facing);
    if n == 0 then r.obj == o && r.tiles == tiles
    else r.obj == o.(state := t, objType := t.thingId, progress := Progress(n, g)) && r.tiles == tiles[Pos(w, o) := t]
  }

  /** One more such turn. */
  lemma StillWaiting(o: Obj, tiles: seq<Tile>, w: nat, before: Outcome, n: nat, g: real, action: TileAction, facing: Direction)
    requires Placed(tiles, w, o) && o.progress == 0.0 && Waited(o, tiles, w, before, n, g, action, facing)
    ensures |before.tiles| == |tiles| && before.obj.x == o.x && before.obj.z == o.z && before.obj.queue == o.queue && before.obj.progress == Progress(n, g)
    ensures forall i :: 0 <= i < |tiles| ==> before.tiles[i].thingId == tiles[i].thingId
    ensures var t := Showing(before.tiles[Pos(w, o)], action, facing);
            t.thingId == tiles[Pos(w, o)].thingId &&
            Waited(o, tiles, w, Outcome(before.obj.(state := t, objType := t.thingId, progress := before.obj.progress + g), before.tiles[Pos(w, o) := t], Pending),
                   n + 1, g, action, facing)
  {
    OneMoreTurn(n, g);
    hide Progress;
  }

  /** A move from progress 0 takes its time: as long as the progress before a turn is below 1,
      each turn adds its gain, the tile shows the move in its direction, and nothing is popped.  */
  lemma {:induction false} MoveTakesTime(o: Obj, tiles: seq<Tile>, w: nat, gain: ubyte -> real, n: nat)
    requires Placed(tiles, w, o) && QueueOk(o) && AboutToMove(o) && Free(tiles, Goal(o, w)) && Goal(o, w) != Pos(w, o) && o.progress == 0.0
    requires var g := gain(tiles[Pos(w, o)].thingId); n > 0 ==> Progress(n - 1, g) < 1.0
    ensures Waited(o, tiles, w, Updates(o, tiles, w, gain, n), n, gain(tiles[Pos(w, o)].thingId), TileAction.Moving, Facing(o.queue[0]))
  {
    var g := gain(tiles[Pos(w, o)].thingId);
    hide UpdateObj, Progress;
    if n > 0 {
      if n > 1 {
        LessBefore(n - 2, g);
      }
      MoveTakesTime(o, tiles, w, gain, n - 1);
      var before := Updates(o, tiles, w, gain, n - 1);
      StillWaiting(o, tiles, w, before, n - 1, g, TileAction.Moving, Facing(o.queue[0]));
      OneMoreTurn(0, g);
      hide Waited, Showing;
      PendingMove(before.obj, before.tiles, w, gain);
    }
  }

  /** At the first turn that begins with a progress of 1 or more the object arrives. */
  lemma MoveArrives(o: Obj, tiles: seq<Tile>, w: nat, gain: ubyte -> real, n: nat)
    requires Placed(tiles, w, o) && QueueOk(o) && AboutToMove(o) && Free(tiles, Goal(o, w)) && Goal(o, w) != Pos(w, o) && o.progress == 0.0
    requires var g := gain(tiles[Pos(w, o)].thingId); n > 0 && Progress(n - 1, g) < 1.0 <= Progress(n, g)
    ensures var r, from, to := Updates(o, tiles, w, gain, n + 1), Pos(w, o), Goal(o, w);
            && r.obj.x == o.x + StepX(o.queue[0]) && r.obj.z == o.z + StepZ(o.queue[0]) && r.obj.queue == o.queue[1..] && r.obj.progress == 0.0
            && r.tiles[to] == tiles[to].(thingId := tiles[from].thingId, action := TileAction.Moving, facing := Facing(o.queue[0]))
            && r.tiles[from] == tiles[from].(thingId := 0, action := TileAction.Idle, facing := Direction.N)
            && forall t :: 0 <= t < |tiles| && t != from && t != to ==> r.tiles[t] == tiles[t]
  {
    hide UpdateObj, Progress;
    MoveTakesTime(o, tiles, w, gain, n);
    var before := Updates(o, tiles, w, gain, n);
    LastOfMove(before.obj, before.tiles, w, gain);
  }

  lemma {:induction false} LiftTakesTime(o: Obj, tiles: seq<Tile>, w: nat, gain: ubyte -> real, n: nat)
    requires Placed(tiles, w, o) && QueueOk(o) && AboutToLift(o) && o.progress == 0.0
    requires var g := gain(tiles[Pos(w, o)].thingId); n > 0 ==> Progress(n - 1, g) < 1.0
    ensures Waited(o, tiles, w, Updates(o, tiles, w, gain, n), n, gain(tiles[Pos(w, o)].thingId), TileAction.MovingVertically, LiftFacing(o.queue[0]))
  {
    var g := gain(tiles[Pos(w, o)].thingId);
    hide UpdateObj, Progress;
    if n > 0 {
      if n > 1 {
        LessBefore(n - 2, g);
      }
      LiftTakesTime(o, tiles, w, gain, n - 1);
      var before := Updates(o, tiles, w, gain, n - 1);
      StillWaiting(o, tiles, w, before, n - 1, g, TileAction.MovingVertically, LiftFacing(o.queue[0]));
      OneMoreTurn(0, g);
      hide Waited, Showing;
      PendingLift(before.obj, before.tiles, w, gain);
    }
  }

  // ---- The ground ----------------------------------------------------------------------

  /** The places in the square of radius 2 around (x, z) from which tile `t` is dug: on the map
      but for its last tile, and not the middle, the south-east corner or the two places
      straight between.  */
  ghost function DugFrom(n: nat, w: nat, x: int, z: int, t: int): set<(int, int)> {
    set dx, dz | -2 <= dx < 3 && -2 <= dz < 3 && DugAt(n, w, x, z, t, dx, dz) :: (dx, dz)
  }

  ghost predicate DugAt(n: nat, w: nat, x: int, z: int, t: int, dx: int, dz: int) {
    x + dx + (z + dz) * w == t && 0 <= t < n - 1 && !((dx == 0 || dx == 2) && (dz == 0 || dz == 2))
  }

  /** Those among the first `k` places, row by row. */
  ghost function DugFirst(n: nat, w: nat, x: int, z: int, t: int, k: nat): set<(int, int)> {
    set dx, dz | -2 <= dx < 3 && -2 <= dz < 3 && 5 * (dz + 2) + dx + 2 < k && DugAt(n, w, x, z, t, dx, dz) :: (dx, dz)
  }

  lemma OneMorePlace(n: nat, w: nat, x: int, z: int, t: int, k: nat)
    requires k < 25
    ensures var dx, dz := k % 5 - 2, k / 5 - 2;
            && (dx, dz) !in DugFirst(n, w, x, z, t, k)
            && DugFirst(n, w, x, z, t, k + 1) == DugFirst(n, w, x, z, t, k) + if DugAt(n, w, x, z, t, dx, dz) then {(dx, dz)} else {}
  {
    var dx, dz := k % 5 - 2, k / 5 - 2;
    forall p: (int, int)
      ensures p in DugFirst(n, w, x, z, t, k + 1) <==> p in DugFirst(n, w, x, z, t, k) || (DugAt(n, w, x, z, t, dx, dz) && p == (dx, dz))
    {
      hide DugAt;
    }
  }

  ghost function DugTimes(n: nat, w: nat, x: int, z: int, t: int, k: nat): nat {
    |DugFirst(n, w, x, z, t, k)|
  }

  lemma OneMoreTime(n: nat, w: nat, x: int, z: int, t: int, k: nat)
    requires k < 25
    ensures DugTimes(n, w, x, z, t, 0) == 0
    ensures DugTimes(n, w, x, z, t, k + 1) == DugTimes(n, w, x, z, t, k) + if DugAt(n, w, x, z, t, k % 5 - 2, k / 5 - 2) then 1 else 0
  {
    assert DugFirst(n, w, x, z, t, 0) == {};
    OneMorePlace(n, w, x, z, t, k);
    hide DugFirst, DugAt;
  }

  /** A tile dug `times` times. */
  function Lowered(t: Tile, times: nat): Tile {
    if times == 0 then t
    else t.(elevation := if t.elevation > times then t.elevation - times else 0, terrType := Dirt)
  }

  lemma LoweredOnce(t: Tile, times: nat)
    ensures Lowered(t, 0) == t && Lowered(Lowered(t, times), 1) == Lowered(t, times + 1)
  {
  }

  lemma DigCellIs(tiles: seq<Tile>, w: nat, x: int, z: int, k: nat, t: nat)
    requires t < |tiles| && k < 25
    ensures DigCell(tiles, w, x, z, k)[t] == if DugAt(|tiles|, w, x, z, t, k % 5 - 2, k / 5 - 2) then Lowered(tiles[t], 1) else tiles[t]
  {
  }

  /** The effect on the ground: a tile is lowered once for each place it is dug from, down to 0
      at most, and is dirt then.  */
  lemma {:induction false} DigIs(tiles: seq<Tile>, w: nat, x: int, z: int, k: nat, t: nat)
    requires t < |tiles| && k <= 25
    ensures Dig(tiles, w, x, z, k)[t] == Lowered(tiles[t], DugTimes(|tiles|, w, x, z, t, k))
  {
    hide DugTimes, DugAt, DigCell, Lowered;
    OneMoreTime(|tiles|, w, x, z, t, 0);
    LoweredOnce(tiles[t], 0);
    if k > 0 {
      DigIs(tiles, w, x, z, k - 1, t);
      DigCellIs(Dig(tiles, w, x, z, k - 1), w, x, z, k - 1, t);
      OneMoreTime(|tiles|, w, x, z, t, k - 1);
      LoweredOnce(tiles[t], DugTimes(|tiles|, w, x, z, t, k - 1));
    }
  }

  lemma AllPlaces(n: nat, w: nat, x: int, z: int, t: int)
    ensures DugTimes(n, w, x, z, t, 25) == |DugFrom(n, w, x, z, t)|
  {
    assert DugFirst(n, w, x, z, t, 25) == DugFrom(n, w, x, z, t);
  }

  /** The last turn of a vertical move: the ground around is dug, the tile of the object is idle
      and keeps its thing, and the object stays where it is.  */
  lemma LastOfLift(o: Obj, tiles: seq<Tile>, w: nat, gain: ubyte -> real, t: nat)
    requires Placed(tiles, w, o) && QueueOk(o) && AboutToLift(o) && o.progress >= 1.0 && t < |tiles|
    ensures var r, p := UpdateObj(o, tiles, w, gain), Pos(w, o);
            var times := |DugFrom(|tiles|, w, o.x, o.z, t)|;
            && |r.tiles| == |tiles|
            && r.obj == o.(state := r.tiles[p], objType := tiles[p].thingId, progress := 0.0, queue := o.queue[1..])
            && r.tiles[t].elevation == (if tiles[t].elevation > times then tiles[t].elevation - times else 0)
            && r.tiles[t] == tiles[t].(elevation := r.tiles[t].elevation, terrType := if times > 0 then Dirt else tiles[t].terrType,
                                       action := if t == p then TileAction.Idle else tiles[t].action)
  {
    hide DigCell, DugFrom, DugTimes;
    DigIs(tiles, w, o.x, o.z, 25, t);
    AllPlaces(|tiles|, w, o.x, o.z, t);
    DigIs(tiles, w, o.x, o.z, 25, Pos(w, o));
    hide Dig;
  }

  // ---- Queues and spawns ---------------------------------------------------------------

  /** The queue filling: a unit with fewer than two actions queued gets its draw behind them,
      and nothing else changes.  */
  lemma FeedIs(s: State, dice: seq<int>, k: nat)
    requires Dice(dice, |s.objs|) && k < |s.objs|
    ensures Feed(s, dice).tiles == s.tiles && |Feed(s, dice).objs| == |s.objs|
    ensures Feed(s, dice).objs[k] == s.objs[k].(queue :=
              if s.objs[k].objType == 4 && |s.objs[k].queue| <= 1 then s.objs[k].queue + [dice[k]] else s.objs[k].queue)
  {
  }

  /** A spawn on a free tile puts the thing there and an object that has just been made at the
      end of the list; any other does nothing.  */
  lemma SpawnIs(s: State, w: nat, x: int, z: int, thing: ubyte)
    requires |s.tiles| == w * w
    ensures var r, i := Spawn(s, w, x, z, thing), x + z * w;
            if Free(s.tiles, i) then
              && r.tiles == s.tiles[i := s.tiles[i].(thingId := thing)]
              && r.objs == s.objs + [Obj(x, z, s.tiles[i].(thingId := thing), thing, [], 0.0)]
            else r == s
  {
  }

  /** In a pass each object acts on what those before it in the list left, and on nothing of
      those behind it; so of two that want one tile the first gets it.  */
  lemma {:induction false} PassInOrder(s: State, w: nat, gain: ubyte -> real, j: nat, n: nat)
    requires Safe(s, w) && j < n <= |s.objs|
    ensures var m := UpdateFirst(s, w, j, gain);
            && Placed(m.tiles, w, s.objs[j])
            && UpdateFirst(s, w, n, gain).objs[j] == UpdateObj(s.objs[j], m.tiles, w, gain).obj
            && UpdateFirst(s, w, j + 1, gain).tiles == UpdateObj(s.objs[j], m.tiles, w, gain).tiles
  {
    hide UpdateObj;
    if j + 1 < n {
      PassInOrder(s, w, gain, j, n - 1);
      hide Turn;
      assert UpdateFirst(s, w, n, gain) == Turn(UpdateFirst(s, w, n - 1, gain), w, n - 1, gain);
    }
  }
}
