/** The object instances, their actions and the manager, updated in place.  Every method is
    proved to compute the state function of Objects that it implements.  */
module ObjectManager {
  import opened Tiles
  import opened Objects
  import opened ObjectRuns

  class ObjectInstanceData {
    var x: int
    var z: int
    var state: Tile
    var objType: ubyte
    var actionQueue: seq<int>
    var actionProgress: real

    ghost function View(): Obj
      reads this
    {
      Obj(x, z, state, objType, actionQueue, actionProgress)
    }

    constructor (x: int, z: int, currentState: Tile)
      ensures View() == Obj(x, z, currentState, currentState.thingId, [], 0.0)
    {
      this.x, this.z, state, objType := x, z, currentState, currentState.thingId;
      actionQueue, actionProgress := [], 0.0;
    }

    /** Leaves the object type as it was. */
    method SetPos(x: int, z: int, tileState: Tile)
      modifies this
      ensures View() == old(View()).(x := x, z := z, state := tileState)
    {
      this.x, this.z, state := x, z, tileState;
    }

    method SetState(state: Tile)
      modifies this
      ensures View() == old(View()).(state := state, objType := state.thingId)
    {
      this.state, objType := state, state.thingId;
    }

    method AddAction(actionID: int)
      modifies this`actionQueue
      ensures View() == old(View()).(queue := old(actionQueue) + [actionID])
    {
      actionQueue := actionQueue + [actionID];
    }
  }

  // ---- Actions -------------------------------------------------------------------------

  method ValidateMove(world: array<Tile>, w: nat, x: int, z: int) returns (ok: bool)
    requires world.Length == w * w
    ensures ok == CanEnter(world[..], x + z * w)
  {
    var tileIndex := x + z * w;
    ok := 0 <= tileIndex < w * w && world[tileIndex].thingId == 0;
  }

  method TransferObjTo(world: array<Tile>, from: nat, to: nat)
    requires from < world.Length && to < world.Length
    modifies world
    ensures world[..] == Transfer(old(world[..]), from, to)
  {
    var t := world[from];
    world[to] := world[to].(thingId := t.thingId, action := t.action, facing := t.facing);
    world[from] := world[from].(thingId := 0, action := TileAction.Idle, facing := Direction.N);
  }

  /** The pending branch of both movement actions. */
  method AnnounceAction(obj: ObjectInstanceData, world: array<Tile>, w: nat, action: TileAction, dir: Direction, gain: ubyte -> real)
    returns (status: Status)
    requires Placed(world[..], w, obj.View())
    modifies obj, world
    ensures Outcome(obj.View(), world[..], status) == Announce(old(obj.View()), old(world[..]), w, action, dir, gain)
  {
    var index := obj.x + obj.z * w;
    var objType := world[index].thingId;
    world[index] := world[index].(action := action, facing := dir);
    obj.SetState(world[index]);
    obj.actionProgress := obj.actionProgress + gain(objType);
    status := Pending;
  }

  method MoveRun(dir: Direction, obj: ObjectInstanceData, world: array<Tile>, w: nat, gain: ubyte -> real)
    returns (status: Status)
    requires world.Length == w * w && Placed(world[..], w, obj.View())
    modifies obj, world
    ensures Outcome(obj.View(), world[..], status) == RunMove(dir, old(obj.View()), old(world[..]), w, gain)
  {
    var x, z := obj.x, obj.z;
    var startIndex := x + z * w;
    match dir {
      case N => z := z - 1;
      case NE => x, z := x + 1, z - 1;
      case E => x := x + 1;
      case SE => x, z := x + 1, z + 1;
      case S => z := z + 1;
      case SW => x, z := x - 1, z + 1;
      case W => x := x - 1;
      case NW => x, z := x - 1, z - 1;
    }
    var destinationIndex := x + z * w;
    if destinationIndex < 0 || destinationIndex >= w * w {
      obj.actionProgress := 0.0;
      return Failure;
    }
    var valid := ValidateMove(world, w, x, z);
    if !valid {
      obj.actionProgress := 0.0;
      return Failure;
    }
    if obj.actionProgress >= 1.0 {
      obj.actionProgress := 0.0;
      TransferObjTo(world, startIndex, destinationIndex);
      obj.SetPos(x, z, world[destinationIndex]);
      return Success;
    } else {
      status := AnnounceAction(obj, world, w, TileAction.Moving, dir, gain);
    }
  }

  method MoveVerticalRun(dir: Direction, obj: ObjectInstanceData, world: array<Tile>, w: nat, gain: ubyte -> real)
    returns (status: Status)
    requires Placed(world[..], w, obj.View())
    modifies obj, world
    ensures Outcome(obj.View(), world[..], status) == RunMoveVertical(dir, old(obj.View()), old(world[..]), w, gain)
  {
    var index := obj.x + obj.z * w;
    var objType := world[index].thingId;
    if obj.actionProgress >= 1.0 {
      obj.actionProgress := 0.0;
      DigGround(world, w, obj.x, obj.z);
      world[index] := world[index].(action := TileAction.Idle);
      world[index] := world[index].(thingId := objType);
      obj.SetState(world[index]);
      return Success;
    } else {
      status := AnnounceAction(obj, world, w, TileAction.MovingVertically, dir, gain);
    }
  }

  method DigGround(world: array<Tile>, w: nat, x0: int, z0: int)
    modifies world
    ensures world[..] == Dig(old(world[..]), w, x0, z0, CELLS)
  {
    hide DigCell;
    var y := z0 - RADIUS;
    while y <= z0 + RADIUS
      invariant z0 - RADIUS <= y <= z0 + RADIUS + 1
      invariant world[..] == Dig(old(world[..]), w, x0, z0, 5 * (y - (z0 - RADIUS)))
    {
      var x := x0 - RADIUS;
      ghost var row := 5 * (y - (z0 - RADIUS));
      while x <= x0 + RADIUS
        invariant x0 - RADIUS <= x <= x0 + RADIUS + 1
        invariant world[..] == Dig(old(world[..]), w, x0, z0, row + (x - (x0 - RADIUS)))
      {
        CellAt(x0, z0, x - (x0 - RADIUS), y - (z0 - RADIUS));
        DigTile(world, w, x0, z0, x, y, row + (x - (x0 - RADIUS)));
        x := x + 1;
      }
      y := y + 1;
    }
  }

  lemma CellAt(x0: int, z0: int, column: nat, row: nat)
    requires column < 5
    ensures CellX(x0, 5 * row + column) == x0 - RADIUS + column
    ensures CellZ(z0, 5 * row + column) == z0 - RADIUS + row
  {
  }

  /** The body of the two loops. */
  method DigTile(world: array<Tile>, w: nat, x0: int, z0: int, x: int, y: int, ghost k: nat)
    requires CellX(x0, k) == x && CellZ(z0, k) == y
    modifies world
    ensures world[..] == DigCell(old(world[..]), w, x0, z0, k)
  {
    var tileIndex := x + y * w;
    if 0 <= tileIndex < world.Length - 1 {
      if !((x == x0 && y == z0) || (x == x0 + RADIUS && y == z0 + RADIUS)
           || (x == x0 + RADIUS && y == z0) || (x == x0 && y == z0 + RADIUS)) {
        var currentElevation: int := world[tileIndex].elevation;
        if currentElevation - 1 >= 0 {
          world[tileIndex] := world[tileIndex].(elevation := currentElevation - 1);
        }
        world[tileIndex] := world[tileIndex].(terrType := Dirt);
      }
    }
  }

  method IdleRun(obj: ObjectInstanceData, world: array<Tile>, w: nat) returns (status: Status)
    requires Placed(world[..], w, obj.View())
    modifies obj, world
    ensures Outcome(obj.View(), world[..], status) == RunIdle(old(obj.View()), old(world[..]), w)
  {
    var tileIndex := obj.x + obj.z * w;
    world[tileIndex] := world[tileIndex].(action := TileAction.Idle);
    obj.SetPos(0, 0, world[tileIndex]);
    status := Success;
  }

  /** The action table. */
  method ActionRun(id: int, obj: ObjectInstanceData, world: array<Tile>, w: nat, gain: ubyte -> real)
    returns (status: Status)
    requires world.Length == w * w && Placed(world[..], w, obj.View()) && 0 <= id < ACTIONS
    modifies obj, world
    ensures Outcome(obj.View(), world[..], status) == RunAction(id, old(obj.View()), old(world[..]), w, gain)
  {
    if id == IDLE {
      status := IdleRun(obj, world, w);
    } else if id <= 8 {
      status := MoveRun(ActionDir(id), obj, world, w, gain);
    } else {
      status := MoveVerticalRun(if id == 9 then Direction.N else Direction.S, obj, world, w, gain);
    }
  }

  /** The body of the update loop, for one object. */
  method UpdateObject(obj: ObjectInstanceData, world: array<Tile>, w: nat, gain: ubyte -> real) returns (status: Status)
    requires world.Length == w * w && Placed(world[..], w, obj.View()) && QueueOk(obj.View())
    modifies obj, world
    ensures Outcome(obj.View(), world[..], status) == UpdateObj(old(obj.View()), old(world[..]), w, gain)
  {
    if obj.actionQueue == [] {
      obj.AddAction(IDLE);
    }
    assert obj.View() == Busy(old(obj.View()));
    status := ActionRun(obj.actionQueue[0], obj, world, w, gain);
    match status {
      case Success => obj.actionQueue := obj.actionQueue[1..];
      case Failure => obj.actionQueue := obj.actionQueue[1..];
      case Pending =>
    }
  }

  // ---- The manager and the game loop ---------------------------------------------------

  ghost function Views(objs: seq<ObjectInstanceData>): (r: seq<Obj>)
    reads objs
    ensures |r| == |objs|
    ensures forall k :: 0 <= k < |objs| ==> r[k] == objs[k].View()
  {
    seq(|objs|, k requires 0 <= k < |objs| reads objs => objs[k].View())
  }

  /** Index `t` is that of a tile in row `z` with x from `lo` to below `hi`. */
  ghost predicate InRow(w: nat, lo: int, hi: int, z: int, t: int) {
    lo <= t - z * w < hi
  }

  /** The same in one of the rows from `top` to below `bottom`. */
  ghost predicate InRows(w: nat, lo: int, hi: int, top: int, bottom: int, t: int) {
    exists z :: top <= z < bottom && InRow(w, lo, hi, z, t)
  }

  lemma RowsMore(w: nat, lo: int, hi: int, top: int, z: int)
    requires top <= z
    ensures forall t {:trigger InRows(w, lo, hi, top, z, t)} ::
              InRows(w, lo, hi, top, z + 1, t) <==> InRows(w, lo, hi, top, z, t) || InRow(w, lo, hi, z, t)
  {
    forall t
      ensures InRows(w, lo, hi, top, z + 1, t) <==> InRows(w, lo, hi, top, z, t) || InRow(w, lo, hi, z, t)
    {
      if InRows(w, lo, hi, top, z + 1, t) {
        var y :| top <= y < z + 1 && InRow(w, lo, hi, y, t);
      }
      if InRows(w, lo, hi, top, z, t) {
        var y :| top <= y < z && InRow(w, lo, hi, y, t);
      }
    }
  }

  ghost predicate InSquare(w: nat, x: int, z: int, radius: nat, t: int) {
    InRows(w, x - radius, x + radius + 1, z - radius, z + radius + 1, t)
  }

  /** Tile `t` is one of those at most `radius` columns and rows away, by index. */
  lemma InSquareIs(w: nat, x: int, z: int, radius: nat, t: int)
    ensures InSquare(w, x, z, radius, t) <==>
            exists dx: int, dz: int :: 0 <= dx + radius && dx <= radius && 0 <= dz + radius && dz <= radius && AtOffset(w, x, z, dx, dz, t)
  {
    var lo, hi := x - radius, x + radius + 1;
    if InSquare(w, x, z, radius, t) {
      var y :| z - radius <= y < z + radius + 1 && InRow(w, lo, hi, y, t);
      assert AtOffset(w, x, z, t - y * w - x, y - z, t);
    }
    if dx: int, dz: int :| 0 <= dx + radius && dx <= radius && 0 <= dz + radius && dz <= radius && AtOffset(w, x, z, dx, dz, t) {
      assert InRow(w, lo, hi, z + dz, t);
    }
  }

  ghost predicate AtOffset(w: nat, x: int, z: int, dx: int, dz: int, t: int) {
    t == x + dx + (z + dz) * w
  }

  /** Game and ObjectManager in one: the world array, its width and the objects. */
  class Game {
    const worldWidth: nat
    const world: array<Tile>
    var allObjects: seq<ObjectInstanceData>

    constructor (worldWidth: nat, world: array<Tile>)
      requires world.Length == worldWidth * worldWidth
      ensures this.worldWidth == worldWidth && this.world == world
      ensures Valid() && Abs() == State(world[..], [])
    {
      this.worldWidth, this.world, allObjects := worldWidth, world, [];
    }

    ghost function Abs(): State
      reads this, world, allObjects
    {
      State(world[..], Views(allObjects))
    }

    ghost predicate Valid()
      reads this, world, allObjects
    {
      && world.Length == worldWidth * worldWidth
      && (forall j, k :: 0 <= j < k < |allObjects| ==> allObjects[j] != allObjects[k])
      && Safe(Abs(), worldWidth)
    }

    /** Spawns nothing off the map or on a taken tile; says whether it spawned. */
    method SpawnObjectRaw(x: int, z: int, thing: ubyte) returns (spawned: bool)
      requires Valid()
      modifies this, world
      ensures Valid() && Abs() == Spawn(old(Abs()), worldWidth, x, z, thing)
      ensures spawned == CanEnter(old(world[..]), x + z * worldWidth)
      ensures spawned ==> |allObjects| == |old(allObjects)| + 1 && fresh(allObjects[|old(allObjects)|])
      ensures old(allObjects) <= allObjects
    {
      var tileIndex := x + z * worldWidth;
      spawned := false;
      if 0 <= tileIndex < worldWidth * worldWidth {
        var originalState := world[tileIndex];
        if originalState.thingId == 0 {
          var newState := originalState.(thingId := thing);
          var newObj := new ObjectInstanceData(x, z, newState);
          ghost var before := allObjects;
          allObjects := allObjects + [newObj];
          world[tileIndex] := newState;
          spawned := true;
          assert Views(allObjects) == old(Views(allObjects)) + [newObj.View()];
        }
      }
    }

    /** `objectInfo` is the type id of each library entry. */
    method SpawnObject(x: int, z: int, objLibIndex: nat, objectInfo: seq<ubyte>) returns (spawned: bool)
      requires Valid() && objLibIndex < |objectInfo|
      modifies this, world
      ensures Valid()
      ensures Abs() == if objLibIndex == 0 then old(Abs()) else Spawn(old(Abs()), worldWidth, x, z, objectInfo[objLibIndex])
      ensures spawned == (objLibIndex != 0 && CanEnter(old(world[..]), x + z * worldWidth))
    {
      if objLibIndex == 0 {
        return false;
      }
      spawned := SpawnObjectRaw(x, z, objectInfo[objLibIndex]);
    }

    /** An administrator's change of terrain: the whole square, and nothing but terrain. */
    method SetTileState(radius: ubyte, xPos: int, zPos: int, elevation: ubyte, temperature: Temperature, terrainType: TerrType)
      modifies world
      ensures forall t :: 0 <= t < world.Length ==>
                world[t] == if InSquare(worldWidth, xPos, zPos, radius, t)
                            then old(world[t]).(elevation := elevation, temperature := temperature, terrType := terrainType)
                            else old(world[t])
      ensures OnlyTerrain(old(world[..]), world[..])
    {
      var lo, hi, top := xPos - radius, xPos + radius + 1, zPos - radius;
      for z := top to zPos + radius + 1
        invariant forall t :: 0 <= t < world.Length ==>
                    world[t] == if InRows(worldWidth, lo, hi, top, z, t)
                                then old(world[t]).(elevation := elevation, temperature := temperature, terrType := terrainType)
                                else old(world[t])
      {
        for x := lo to hi
          invariant forall t :: 0 <= t < world.Length ==>
                      world[t] == if InRows(worldWidth, lo, hi, top, z, t) || InRow(worldWidth, lo, x, z, t)
                                  then old(world[t]).(elevation := elevation, temperature := temperature, terrType := terrainType)
                                  else old(world[t])
        {
          var tileIndex := x + z * worldWidth;
          if 0 <= tileIndex < world.Length {
            world[tileIndex] := world[tileIndex].(elevation := elevation, temperature := temperature, terrType := terrainType);
          }
        }
        RowsMore(worldWidth, lo, hi, top, z);
      }
    }

    method UpdateOne(k: nat, gain: ubyte -> real)
      requires Valid() && k < |allObjects|
      modifies world, allObjects
      ensures Valid()
      ensures Abs() == Turn(old(Abs()), worldWidth, k, gain)
    {
      ghost var before := Abs();
      assert allObjects[k].View() == before.objs[k];
      var status := UpdateObject(allObjects[k], world, worldWidth, gain);
      assert Abs().objs == before.objs[k := allObjects[k].View()];
    }

    /** One round of the loop over all objects, begun in state `s`. */
    method UpdateNext(ghost s: State, k: nat, gain: ubyte -> real)
      requires Valid() && Safe(s, worldWidth) && k < |s.objs| && Abs() == UpdateFirst(s, worldWidth, k, gain)
      modifies world, allObjects
      ensures Valid() && Abs() == UpdateFirst(s, worldWidth, k + 1, gain)
    {
      UpdateOne(k, gain);
    }

    method UpdateFunc(gain: ubyte -> real)
      requires Valid()
      modifies world, allObjects
      ensures Valid() && Abs() == UpdateFirst(old(Abs()), worldWidth, |allObjects|, gain)
    {
      hide Turn, Safe;
      ghost var s := Abs();
      for k := 0 to |allObjects|
        invariant Valid() && Abs() == UpdateFirst(s, worldWidth, k, gain)
      {
        UpdateNext(s, k, gain);
      }
    }

    /** One iteration of Game::run; the dice are the random moves. */
    method RunOnce(dice: seq<int>, gain: ubyte -> real)
      requires Valid() && Dice(dice, |allObjects|)
      modifies world, allObjects
      ensures Valid() && Abs() == Tick(old(Abs()), worldWidth, dice, gain)
    {
      for k := 0 to |allObjects|
        invariant world[..] == old(world[..])
        invariant forall j :: 0 <= j < |allObjects| ==>
                    allObjects[j].View() == if j < k then Fed(old(allObjects[j].View()), dice[j]) else old(allObjects[j].View())
      {
        var obj := allObjects[k];
        if obj.objType == UNIT {
          if |obj.actionQueue| < 2 {
            obj.AddAction(dice[k]);
          }
        }
      }
      assert Abs() == Feed(old(Abs()), dice);
      UpdateFunc(gain);
    }
  }
}
