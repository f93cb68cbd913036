/** Objects on the map: one object's actions and one pass over all objects, as functions from
    state to state.  The classes in ObjectManager are proved to compute these.

    Only the index `x + z * w` of a position is ever range checked, so everything is stated on
    the index; `x` alone can leave [0, w).  */
module Objects {
  import opened Tiles

  /** The fields of ObjectInstanceData; the faction is not part of this model. */
  datatype Obj = Obj(x: int, z: int, state: Tile, objType: ubyte, queue: seq<int>, progress: real)

  datatype Status = Pending | Success | Failure

  datatype State = State(tiles: seq<Tile>, objs: seq<Obj>)

  datatype Outcome = Outcome(obj: Obj, tiles: seq<Tile>, status: Status)

  // Action ids are positions in the action table: 0 idles, 1 to 8 move in the directions
  // N, NE, E, SE, S, SW, W, NW, and 9 and 10 move vertically.
  const IDLE := 0
  const ACTIONS := 11

  // The object type whose instances Game::run keeps supplied with moves.
  const UNIT: ubyte := 4

  function Pos(w: nat, o: Obj): int {
    o.x + o.z * w
  }

  predicate Placed(tiles: seq<Tile>, w: nat, o: Obj) {
    0 <= Pos(w, o) < |tiles|
  }

  // ---- Move ----------------------------------------------------------------------------

  function DirX(dir: Direction): int {
    match dir
    case NE | E | SE => 1
    case SW | W | NW => -1
    case N | S => 0
  }

  function DirZ(dir: Direction): int {
    match dir
    case N | NE | NW => -1
    case SE | S | SW => 1
    case E | W => 0
  }

  /** The object fields go to the destination tile and are cleared at the source. */
  function Transfer(tiles: seq<Tile>, from: nat, to: nat): (r: seq<Tile>)
    requires from < |tiles| && to < |tiles|
    ensures |r| == |tiles|
  {
    var t := tiles[from];
    var copied := tiles[to := tiles[to].(thingId := t.thingId, action := t.action, facing := t.facing)];
    copied[from := copied[from].(thingId := 0, action := TileAction.Idle, facing := Direction.N)]
  }

  predicate CanEnter(tiles: seq<Tile>, index: int) {
    0 <= index < |tiles| && tiles[index].thingId == 0
  }

  /** Announces an action on the tile of the object and takes over the tile state. */
  function Announce(o: Obj, tiles: seq<Tile>, w: nat, action: TileAction, dir: Direction, gain: ubyte -> real): (r: Outcome)
    requires Placed(tiles, w, o)
    ensures |r.tiles| == |tiles| && Placed(r.tiles, w, r.obj) && r.obj.queue == o.queue
  {
    var t := tiles[Pos(w, o)].(action := action, facing := dir);
    Outcome(o.(state := t, objType := t.thingId, progress := o.progress + gain(t.thingId)), tiles[Pos(w, o) := t], Pending)
  }

  function RunMove(dir: Direction, o: Obj, tiles: seq<Tile>, w: nat, gain: ubyte -> real): (r: Outcome)
    requires Placed(tiles, w, o)
    ensures |r.tiles| == |tiles| && Placed(r.tiles, w, r.obj) && r.obj.queue == o.queue
  {
    var x, z := o.x + DirX(dir), o.z + DirZ(dir);
    var destination := x + z * w;
    if !CanEnter(tiles, destination) then Outcome(o.(progress := 0.0), tiles, Failure)
    else if o.progress >= 1.0 then
      var after := Transfer(tiles, Pos(w, o), destination);
      Outcome(o.(x := x, z := z, state := after[destination], progress := 0.0), after, Success)
    else Announce(o, tiles, w, TileAction.Moving, dir, gain)
  }

  // ---- MoveVertical --------------------------------------------------------------------

  // The square of that radius has five rows of five cells.
  const RADIUS := 2
  const CELLS: nat := 25

  function Dug(t: Tile): Tile {
    t.(elevation := if t.elevation >= 1 then t.elevation - 1 else t.elevation, terrType := Dirt)
  }

  /** Cell `k` of the square around (x, z), row by row. */
  function CellX(x: int, k: nat): int { x - RADIUS + k % 5 }
  function CellZ(z: int, k: nat): int { z - RADIUS + k / 5 }

  /** Cell `k` is dug: it is on the map but for its last tile, and is not left out. */
  predicate Digs(n: nat, w: nat, x: int, z: int, k: nat) {
    var cx, cz := CellX(x, k), CellZ(z, k);
    && 0 <= cx + cz * w < n - 1
    && !((cx == x || cx == x + RADIUS) && (cz == z || cz == z + RADIUS))
  }

  function DigCell(tiles: seq<Tile>, w: nat, x: int, z: int, k: nat): (r: seq<Tile>)
    ensures |r| == |tiles|
  {
    var cell := CellX(x, k) + CellZ(z, k) * w;
    if Digs(|tiles|, w, x, z, k) then tiles[cell := Dug(tiles[cell])] else tiles
  }

  /** The effect on the ground of the first `k` cells. */
  function Dig(tiles: seq<Tile>, w: nat, x: int, z: int, k: nat): (r: seq<Tile>)
    ensures |r| == |tiles|
  {
    if k == 0 then tiles else DigCell(Dig(tiles, w, x, z, k - 1), w, x, z, k - 1)
  }

  function RunMoveVertical(dir: Direction, o: Obj, tiles: seq<Tile>, w: nat, gain: ubyte -> real): (r: Outcome)
    requires Placed(tiles, w, o)
    ensures |r.tiles| == |tiles| && Placed(r.tiles, w, r.obj) && r.obj.queue == o.queue
  {
    if o.progress >= 1.0 then
      var dug := Dig(tiles, w, o.x, o.z, CELLS);
      var t := dug[Pos(w, o)].(action := TileAction.Idle, thingId := tiles[Pos(w, o)].thingId);
      Outcome(o.(state := t, objType := t.thingId, progress := 0.0), dug[Pos(w, o) := t], Success)
    else Announce(o, tiles, w, TileAction.MovingVertically, dir, gain)
  }

  // ---- Idle, and one update ------------------------------------------------------------

  /** Records position (0, 0), whatever tile the object stands on. */
  function RunIdle(o: Obj, tiles: seq<Tile>, w: nat): (r: Outcome)
    requires Placed(tiles, w, o)
    ensures |r.tiles| == |tiles| && Placed(r.tiles, w, r.obj) && r.obj.queue == o.queue
  {
    var t := tiles[Pos(w, o)].(action := TileAction.Idle);
    Outcome(o.(x := 0, z := 0, state := t), tiles[Pos(w, o) := t], Success)
  }

  function ActionDir(id: int): Direction
    requires 1 <= id <= 8
  {
    if id == 1 then Direction.N
    else if id == 2 then Direction.NE
    else if id == 3 then Direction.E
    else if id == 4 then Direction.SE
    else if id == 5 then Direction.S
    else if id == 6 then Direction.SW
    else if id == 7 then Direction.W
    else Direction.NW
  }

  function RunAction(id: int, o: Obj, tiles: seq<Tile>, w: nat, gain: ubyte -> real): (r: Outcome)
    requires Placed(tiles, w, o) && 0 <= id < ACTIONS
    ensures |r.tiles| == |tiles| && Placed(r.tiles, w, r.obj) && r.obj.queue == o.queue
  {
    if id == IDLE then RunIdle(o, tiles, w)
    else if id <= 8 then RunMove(ActionDir(id), o, tiles, w, gain)
    else RunMoveVertical(if id == 9 then Direction.N else Direction.S, o, tiles, w, gain)
  }

  /** An empty queue gets the idle action before the update. */
  function Busy(o: Obj): (r: Obj)
    ensures r.queue != []
  {
    if o.queue == [] then o.(queue := [IDLE]) else o
  }

  /** What the update runs for an object. */
  function NextAction(o: Obj): int {
    Busy(o).queue[0]
  }

  predicate QueueOk(o: Obj) {
    forall i :: 0 <= i < |o.queue| ==> 0 <= o.queue[i] < ACTIONS
  }

  /** Pops the queue unless the action is pending. */
  function Popped(o: Obj, status: Status): Obj
    requires o.queue != []
  {
    if status.Pending? then o else o.(queue := o.queue[1..])
  }

  function UpdateObj(o: Obj, tiles: seq<Tile>, w: nat, gain: ubyte -> real): (r: Outcome)
    requires Placed(tiles, w, o) && QueueOk(o)
    ensures |r.tiles| == |tiles| && Placed(r.tiles, w, r.obj) && QueueOk(r.obj)
  {
    var busy := Busy(o);
    var out := RunAction(NextAction(o), busy, tiles, w, gain);
    out.(obj := Popped(out.obj, out.status))
  }

  // ---- The whole state -----------------------------------------------------------------

  /** Positions and queues are in range. */
  predicate Safe(s: State, w: nat) {
    && |s.tiles| == w * w
    && forall k :: 0 <= k < |s.objs| ==> Placed(s.tiles, w, s.objs[k]) && QueueOk(s.objs[k])
  }

  function SetObj(s: State, k: nat, out: Outcome): State
    requires k < |s.objs|
  {
    State(out.tiles, s.objs[k := out.obj])
  }

  /** The turn of object `k` in a pass over all objects. */
  function Turn(s: State, w: nat, k: nat, gain: ubyte -> real): (r: State)
    requires Safe(s, w) && k < |s.objs|
    ensures Safe(r, w) && |r.objs| == |s.objs|
    ensures forall j :: 0 <= j < |s.objs| && j != k ==> r.objs[j] == s.objs[j]
  {
    SetObj(s, k, UpdateObj(s.objs[k], s.tiles, w, gain))
  }

  /** The state after the first `k` objects of a pass are updated. */
  function UpdateFirst(s: State, w: nat, k: nat, gain: ubyte -> real): (r: State)
    requires Safe(s, w) && k <= |s.objs|
    ensures Safe(r, w) && |r.objs| == |s.objs|
    ensures forall j :: k <= j < |s.objs| ==> r.objs[j] == s.objs[j]
  {
    if k == 0 then s else Turn(UpdateFirst(s, w, k - 1, gain), w, k - 1, gain)
  }

  /** The queue filling of Game::run; `dice[k]` is what object `k` draws if it draws. */
  function Fed(o: Obj, draw: int): Obj {
    if o.objType == UNIT && |o.queue| < 2 then o.(queue := o.queue + [draw]) else o
  }

  predicate Dice(dice: seq<int>, n: nat) {
    |dice| == n && forall k :: 0 <= k < n ==> 1 <= dice[k] <= 8
  }

  function Feed(s: State, dice: seq<int>): (r: State)
    requires Dice(dice, |s.objs|)
    ensures r.tiles == s.tiles && |r.objs| == |s.objs|
  {
    s.(objs := seq(|s.objs|, k requires 0 <= k < |s.objs| => Fed(s.objs[k], dice[k])))
  }

  /** Spawning puts the thing on its tile, unless the index is off the map or taken. */
  function Spawn(s: State, w: nat, x: int, z: int, thing: ubyte): (r: State)
    requires |s.tiles| == w * w
  {
    if CanEnter(s.tiles, x + z * w) then
      var t := s.tiles[x + z * w].(thingId := thing);
      State(s.tiles[x + z * w := t], s.objs + [Obj(x, z, t, thing, [], 0.0)])
    else s
  }
}
