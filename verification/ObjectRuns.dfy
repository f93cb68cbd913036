/** What holds over whole runs of the object machinery. */
module ObjectRuns {
  import opened Tiles
  import opened Objects

  function Ids(tiles: seq<Tile>): (r: seq<ubyte>)
    ensures |r| == |tiles|
    ensures forall t :: 0 <= t < |r| ==> r[t] == tiles[t].thingId
  {
    seq(|tiles|, t requires 0 <= t < |tiles| => tiles[t].thingId)
  }

  /** The things on the grid: the nonzero ids. */
  function Things(tiles: seq<Tile>): multiset<ubyte> {
    multiset(Ids(tiles))[0 := 0]
  }

  // ---- One action ----------------------------------------------------------------------

  /** The ground effect changes elevation and type only, and raises nothing. */
  lemma {:induction false} DigFrame(tiles: seq<Tile>, w: nat, x: int, z: int, k: nat, t: nat)
    requires t < |tiles|
    ensures var d := Dig(tiles, w, x, z, k)[t];
            && d == tiles[t].(elevation := d.elevation, terrType := d.terrType)
            && d.elevation <= tiles[t].elevation
            && (d == tiles[t] || d.terrType == Dirt)
  {
    if k > 0 {
      DigFrame(tiles, w, x, z, k - 1, t);
    }
  }

  lemma TransferIds(tiles: seq<Tile>, from: nat, to: nat)
    requires from < |tiles| && to < |tiles| && tiles[to].thingId == 0
    ensures Ids(Transfer(tiles, from, to)) == Ids(tiles)[to := tiles[from].thingId][from := 0]
    ensures multiset(Ids(Transfer(tiles, from, to))) == multiset(Ids(tiles))
  {
    assert Ids(Transfer(tiles, from, to)) == Ids(tiles)[to := tiles[from].thingId][from := 0];
  }

  lemma AnnounceKeepsIds(o: Obj, tiles: seq<Tile>, w: nat, action: TileAction, dir: Direction, gain: ubyte -> real)
    requires Placed(tiles, w, o)
    ensures Ids(Announce(o, tiles, w, action, dir, gain).tiles) == Ids(tiles)
  {
  }

  lemma VerticalKeepsIds(dir: Direction, o: Obj, tiles: seq<Tile>, w: nat, gain: ubyte -> real)
    requires Placed(tiles, w, o)
    ensures Ids(RunMoveVertical(dir, o, tiles, w, gain).tiles) == Ids(tiles)
  {
    hide Dig;
    var dug := Dig(tiles, w, o.x, o.z, CELLS);
    forall t: nat | t < |tiles|
      ensures dug[t].thingId == tiles[t].thingId
    {
      DigFrame(tiles, w, o.x, o.z, CELLS, t);
    }
  }

  lemma MoveKeepsThings(dir: Direction, o: Obj, tiles: seq<Tile>, w: nat, gain: ubyte -> real)
    requires Placed(tiles, w, o)
    ensures multiset(Ids(RunMove(dir, o, tiles, w, gain).tiles)) == multiset(Ids(tiles))
  {
    hide Transfer, Ids;
    var to := o.x + DirX(dir) + (o.z + DirZ(dir)) * w;
    if CanEnter(tiles, to) && o.progress >= 1.0 {
      TransferIds(tiles, Pos(w, o), to);
    } else {
      AnnounceKeepsIds(o, tiles, w, TileAction.Moving, dir, gain);
    }
  }

  /** No action creates, destroys or changes a thing, even for an object whose recorded position
      is stale.  */
  lemma ActionKeepsThings(id: int, o: Obj, tiles: seq<Tile>, w: nat, gain: ubyte -> real)
    requires Placed(tiles, w, o) && 0 <= id < ACTIONS
    ensures multiset(Ids(RunAction(id, o, tiles, w, gain).tiles)) == multiset(Ids(tiles))
  {
    hide RunMove, RunMoveVertical;
    if id == IDLE {
      assert Ids(RunIdle(o, tiles, w).tiles) == Ids(tiles);
    } else if id <= 8 {
      MoveKeepsThings(ActionDir(id), o, tiles, w, gain);
    } else {
      VerticalKeepsIds(if id == 9 then Direction.N else Direction.S, o, tiles, w, gain);
    }
  }

  /** The eight directions lead to the eight tiles around, one each. */
  lemma DirectionsReachNeighbours(dx: int, dz: int)
    requires -1 <= dx <= 1 && -1 <= dz <= 1 && !(dx == 0 && dz == 0)
    ensures exists d :: DirX(d) == dx && DirZ(d) == dz && forall e :: DirX(e) == dx && DirZ(e) == dz ==> e == d
  {
    var d := if dz == -1 then (if dx == -1 then NW else if dx == 0 then N else NE)
             else if dz == 0 then (if dx == -1 then W else E)
             else (if dx == -1 then SW else if dx == 0 then S else SE);
    assert DirX(d) == dx && DirZ(d) == dz;
  }

  function Opposite(d: Direction): Direction {
    match d
    case N => S
    case NE => SW
    case E => W
    case SE => NW
    case S => N
    case SW => NE
    case W => E
    case NW => SE
  }

  /** A completed move puts the object fields of the start tile on the destination tile and
      frees the start tile; the terrain, and every other tile, is as before.  Moving back then
      undoes it, but for the action and facing that a free tile may have kept.  */
  lemma MoveThereAndBack(d: Direction, o: Obj, tiles: seq<Tile>, w: nat, gain: ubyte -> real)
    requires Placed(tiles, w, o) && RunMove(d, o, tiles, w, gain).status.Success?
    requires Pos(w, o) != o.x + DirX(d) + (o.z + DirZ(d)) * w
    ensures var there := RunMove(d, o, tiles, w, gain);
            var from, to := Pos(w, o), Pos(w, there.obj);
            && there.obj == o.(x := o.x + DirX(d), z := o.z + DirZ(d), state := there.tiles[to], progress := 0.0)
            && there.tiles[to] == tiles[from].(terrType := tiles[to].terrType, elevation := tiles[to].elevation, temperature := tiles[to].temperature)
            && there.tiles[from].thingId == 0
            && (forall t :: 0 <= t < |tiles| && t != from && t != to ==> there.tiles[t] == tiles[t])
            && var back := RunMove(Opposite(d), there.obj.(progress := 1.0), there.tiles, w, gain);
               && back.status.Success? && back.obj.x == o.x && back.obj.z == o.z && back.obj.state == tiles[from]
               && back.tiles == tiles[to := tiles[to].(action := TileAction.Idle, facing := Direction.N)]
  {
  }

  // ---- Runs ----------------------------------------------------------------------------

  /** `Acts` is any object running any action at any time; `Ticks` is one iteration of
      Game::run, `gain` being the speed of each object type times the time step; `Reshapes` is
      any change of terrain, by the world generator or by an administrator.  */
  datatype Event =
    | Spawns(x: int, z: int, thing: ubyte)
    | Reshapes(tiles: seq<Tile>)
    | Acts(k: int, id: int, gain: ubyte -> real)
    | Ticks(dice: seq<int>, gain: ubyte -> real)

  /** The tiles differ in terrain only. */
  predicate OnlyTerrain(before: seq<Tile>, after: seq<Tile>) {
    && |after| == |before|
    && forall t :: 0 <= t < |before| ==>
         after[t] == before[t].(terrType := after[t].terrType, elevation := after[t].elevation, temperature := after[t].temperature)
  }

  function Tick(s: State, w: nat, dice: seq<int>, gain: ubyte -> real): (r: State)
    requires Safe(s, w) && Dice(dice, |s.objs|)
    ensures Safe(r, w)
  {
    var fed := Feed(s, dice);
    UpdateFirst(fed, w, |fed.objs|, gain)
  }

  function Apply(s: State, w: nat, e: Event): (r: State)
    requires Safe(s, w)
    ensures Safe(r, w)
  {
    match e
    case Spawns(x, z, thing) => Spawn(s, w, x, z, thing)
    case Reshapes(tiles) => if OnlyTerrain(s.tiles, tiles) then s.(tiles := tiles) else s
    case Acts(k, id, gain) =>
      if 0 <= k < |s.objs| && 0 <= id < ACTIONS then SetObj(s, k, RunAction(id, s.objs[k], s.tiles, w, gain)) else s
    case Ticks(dice, gain) =>
      if Dice(dice, |s.objs|) then Tick(s, w, dice, gain) else s
  }

  function After(s: State, w: nat, events: seq<Event>): (r: State)
    requires Safe(s, w)
    ensures Safe(r, w)
  {
    if events == [] then s
    else Apply(After(s, w, events[..|events| - 1]), w, events[|events| - 1])
  }

  /** The things a run put on the map. */
  function Spawned(s: State, w: nat, events: seq<Event>): multiset<ubyte>
    requires Safe(s, w)
  {
    if events == [] then multiset{}
    else
      var before := events[..|events| - 1];
      Spawned(s, w, before) + SpawnedBy(After(s, w, before), w, events[|events| - 1])
  }

  function SpawnedBy(s: State, w: nat, e: Event): multiset<ubyte> {
    if e.Spawns? && CanEnter(s.tiles, e.x + e.z * w) && e.thing != 0 then multiset{e.thing} else multiset{}
  }

  lemma TurnKeepsThings(s: State, w: nat, k: nat, gain: ubyte -> real)
    requires Safe(s, w) && k < |s.objs|
    ensures Things(Turn(s, w, k, gain).tiles) == Things(s.tiles)
  {
    var o := s.objs[k];
    ActionKeepsThings(NextAction(o), Busy(o), s.tiles, w, gain);
  }

  lemma LastTurnKeepsThings(s: State, w: nat, k: nat, gain: ubyte -> real)
    requires Safe(s, w) && 0 < k <= |s.objs|
    ensures Things(UpdateFirst(s, w, k, gain).tiles) == Things(UpdateFirst(s, w, k - 1, gain).tiles)
  {
    hide Turn;
    TurnKeepsThings(UpdateFirst(s, w, k - 1, gain), w, k - 1, gain);
  }

  lemma {:induction false} UpdateKeepsThings(s: State, w: nat, k: nat, gain: ubyte -> real)
    requires Safe(s, w) && k <= |s.objs|
    ensures Things(UpdateFirst(s, w, k, gain).tiles) == Things(s.tiles)
  {
    hide Turn;
    if k > 0 {
      UpdateKeepsThings(s, w, k - 1, gain);
      LastTurnKeepsThings(s, w, k, gain);
    }
  }

  lemma SpawnAddsThing(s: State, w: nat, x: int, z: int, thing: ubyte)
    requires Safe(s, w)
    ensures Things(Spawn(s, w, x, z, thing).tiles) == Things(s.tiles) + SpawnedBy(s, w, Spawns(x, z, thing))
  {
    var i := x + z * w;
    if CanEnter(s.tiles, i) {
      assert Ids(Spawn(s, w, x, z, thing).tiles) == Ids(s.tiles)[i := thing];
      PutThing(Ids(s.tiles), i, thing);
    }
  }

  lemma PutThing(ids: seq<ubyte>, i: nat, thing: ubyte)
    requires i < |ids| && ids[i] == 0
    ensures multiset(ids[i := thing])[0 := 0] == multiset(ids)[0 := 0] + if thing != 0 then multiset{thing} else multiset{}
  {
    assert multiset(ids[i := thing]) == multiset(ids) - multiset{0} + multiset{thing};
  }

  lemma EventConserves(s: State, w: nat, e: Event)
    requires Safe(s, w)
    ensures Things(Apply(s, w, e).tiles) == Things(s.tiles) + SpawnedBy(s, w, e)
  {
    match e
    case Spawns(x, z, thing) => SpawnAddsThing(s, w, x, z, thing);
    case Reshapes(tiles) =>
      assert OnlyTerrain(s.tiles, tiles) ==> Ids(tiles) == Ids(s.tiles);
    case Acts(k, id, gain) =>
      if 0 <= k < |s.objs| && 0 <= id < ACTIONS {
        ActionKeepsThings(id, s.objs[k], s.tiles, w, gain);
      }
    case Ticks(dice, gain) =>
      if Dice(dice, |s.objs|) {
        UpdateKeepsThings(Feed(s, dice), w, |s.objs|, gain);
      }
  }

  /** Over every run, in any order of spawns and actions, the things on the grid are those there
      at first and those spawned, and every recorded position stays on the map.  */
  lemma {:induction false} ThingsAreConserved(s: State, w: nat, events: seq<Event>)
    requires Safe(s, w)
    ensures Things(After(s, w, events).tiles) == Things(s.tiles) + Spawned(s, w, events)
    ensures forall k :: 0 <= k < |After(s, w, events).objs| ==> 0 <= Pos(w, After(s, w, events).objs[k]) < w * w
  {
    if events != [] {
      var before, e := events[..|events| - 1], events[|events| - 1];
      ThingsAreConserved(s, w, before);
      EventConserves(After(s, w, before), w, e);
    }
  }

  // ---- Units ---------------------------------------------------------------------------

  predicate IsUnit(o: Obj) {
    o.objType == UNIT
  }

  predicate OnlyMoves(o: Obj) {
    forall i :: 0 <= i < |o.queue| ==> 1 <= o.queue[i] <= 8
  }

  /** Units and the tiles that show a unit correspond one to one, and only units have queued
      actions, all of them moves.  */
  ghost predicate Units(s: State, w: nat) {
    && Safe(s, w)
    && Matched(s, w)
    && forall k :: 0 <= k < |s.objs| ==> if IsUnit(s.objs[k]) then OnlyMoves(s.objs[k]) else s.objs[k].queue == []
  }

  ghost predicate Matched(s: State, w: nat)
    requires Safe(s, w)
  {
    && (forall k :: 0 <= k < |s.objs| && IsUnit(s.objs[k]) ==> s.tiles[Pos(w, s.objs[k])].thingId == UNIT)
    && (forall j, k :: 0 <= j < k < |s.objs| && IsUnit(s.objs[j]) && IsUnit(s.objs[k]) ==>
          Pos(w, s.objs[j]) != Pos(w, s.objs[k]))
    && (forall t :: 0 <= t < |s.tiles| && s.tiles[t].thingId == UNIT ==> UnitAt(s, w, t))
  }

  ghost predicate UnitAt(s: State, w: nat, t: int) {
    exists k :: 0 <= k < |s.objs| && IsUnit(s.objs[k]) && Pos(w, s.objs[k]) == t
  }

  /** The match depends on the ids on the grid and on the types and positions of the units. */
  lemma SameMatch(s: State, r: State, w: nat)
    requires Safe(s, w) && Safe(r, w) && Matched(s, w)
    requires Ids(r.tiles) == Ids(s.tiles) && |r.objs| == |s.objs|
    requires forall k :: 0 <= k < |s.objs| ==> (IsUnit(r.objs[k]) <==> IsUnit(s.objs[k]))
    requires forall k :: 0 <= k < |s.objs| && IsUnit(s.objs[k]) ==> Pos(w, r.objs[k]) == Pos(w, s.objs[k])
    ensures Matched(r, w)
  {
  }

  lemma FeedKeepsUnits(s: State, w: nat, dice: seq<int>)
    requires Units(s, w) && Dice(dice, |s.objs|)
    ensures Units(Feed(s, dice), w)
    ensures Supplied(Feed(s, dice), |s.objs|)
  {
    var fed := Feed(s, dice);
    FeedPlaces(s, w, dice);
    SameMatch(s, fed, w);
  }

  lemma FeedPlaces(s: State, w: nat, dice: seq<int>)
    requires Safe(s, w) && Dice(dice, |s.objs|)
    ensures Safe(Feed(s, dice), w)
    ensures forall k :: 0 <= k < |s.objs| ==>
              && Feed(s, dice).objs[k] == Fed(s.objs[k], dice[k])
              && Pos(w, Feed(s, dice).objs[k]) == Pos(w, s.objs[k])
              && (IsUnit(Feed(s, dice).objs[k]) <==> IsUnit(s.objs[k]))
  {
  }

  lemma SpawnKeepsUnits(s: State, w: nat, x: int, z: int, thing: ubyte)
    requires Units(s, w)
    ensures Units(Spawn(s, w, x, z, thing), w)
  {
    hide Matched;
    if CanEnter(s.tiles, x + z * w) {
      var o := Obj(x, z, s.tiles[x + z * w].(thingId := thing), thing, [], 0.0);
      AddedMatches(s, w, o);
    }
  }

  /** One more object, on a free tile. */
  lemma AddedMatches(s: State, w: nat, o: Obj)
    requires Safe(s, w) && Matched(s, w) && Placed(s.tiles, w, o) && o.queue == []
    requires s.tiles[Pos(w, o)].thingId == 0 && o.state.thingId == o.objType
    ensures Matched(State(s.tiles[Pos(w, o) := o.state], s.objs + [o]), w)
  {
    var r := State(s.tiles[Pos(w, o) := o.state], s.objs + [o]);
    forall t | 0 <= t < |r.tiles| && r.tiles[t].thingId == UNIT
      ensures UnitAt(r, w, t)
    {
      if s.tiles[t].thingId == UNIT {
        var k :| 0 <= k < |s.objs| && IsUnit(s.objs[k]) && Pos(w, s.objs[k]) == t;
        assert r.objs[k] == s.objs[k];
      } else {
        assert IsUnit(r.objs[|s.objs|]) && Pos(w, r.objs[|s.objs|]) == t;
      }
    }
  }

  /** What one object's turn does to its own object and to the ids on the grid. */
  lemma TurnOfUnit(o: Obj, tiles: seq<Tile>, w: nat, gain: ubyte -> real)
    requires Placed(tiles, w, o) && IsUnit(o) && OnlyMoves(o) && o.queue != []
    requires tiles[Pos(w, o)].thingId == UNIT
    ensures var r := UpdateObj(o, tiles, w, gain);
            && IsUnit(r.obj) && OnlyMoves(r.obj)
            && (Pos(w, r.obj) != Pos(w, o) ==> tiles[Pos(w, r.obj)].thingId == 0)
            && Ids(r.tiles) == if Pos(w, r.obj) == Pos(w, o) then Ids(tiles)
                               else Ids(tiles)[Pos(w, r.obj) := UNIT][Pos(w, o) := 0]
  {
  }

  lemma TurnOfOther(o: Obj, tiles: seq<Tile>, w: nat, gain: ubyte -> real)
    requires Placed(tiles, w, o) && o.queue == []
    ensures var r := UpdateObj(o, tiles, w, gain);
            && r.obj.objType == o.objType && r.obj.queue == [] && r.obj.x == 0 && r.obj.z == 0
            && Ids(r.tiles) == Ids(tiles)
  {
  }

  ghost predicate SameUnits(s: State, r: State) {
    |r.objs| == |s.objs| && forall k :: 0 <= k < |s.objs| ==> (IsUnit(r.objs[k]) <==> IsUnit(s.objs[k]))
  }

  lemma TurnKeepsUnits(s: State, w: nat, k: nat, gain: ubyte -> real)
    requires Units(s, w) && k < |s.objs|
    requires IsUnit(s.objs[k]) ==> s.objs[k].queue != []
    ensures Units(Turn(s, w, k, gain), w) && SameUnits(s, Turn(s, w, k, gain))
  {
    var out := UpdateObj(s.objs[k], s.tiles, w, gain);
    var r := SetObj(s, k, out);
    if IsUnit(s.objs[k]) {
      TurnOfUnit(s.objs[k], s.tiles, w, gain);
    } else {
      TurnOfOther(s.objs[k], s.tiles, w, gain);
    }
    forall t | 0 <= t < |r.tiles|
      ensures r.tiles[t].thingId == Ids(r.tiles)[t]
    {
    }
    forall t | 0 <= t < |r.tiles| && r.tiles[t].thingId == UNIT
      ensures UnitAt(r, w, t)
    {
      if IsUnit(s.objs[k]) && t == Pos(w, out.obj) {
        assert IsUnit(r.objs[k]);
      } else {
        assert s.tiles[t].thingId == Ids(s.tiles)[t] == UNIT;
        var j :| 0 <= j < |s.objs| && IsUnit(s.objs[j]) && Pos(w, s.objs[j]) == t;
        assert j != k && r.objs[j] == s.objs[j];
      }
    }
  }

  /** Every unit among the first `k` objects has something queued. */
  ghost predicate Supplied(s: State, k: nat) {
    forall j :: 0 <= j < k && j < |s.objs| && IsUnit(s.objs[j]) ==> s.objs[j].queue != []
  }

  lemma {:induction false} UpdateKeepsUnits(s: State, w: nat, k: nat, gain: ubyte -> real)
    requires Units(s, w) && k <= |s.objs| && Supplied(s, k)
    ensures Units(UpdateFirst(s, w, k, gain), w)
    ensures SameUnits(s, UpdateFirst(s, w, k, gain))
  {
    hide Turn, Matched;
    if k > 0 {
      UpdateKeepsUnits(s, w, k - 1, gain);
      LastTurnKeepsUnits(s, w, k, gain);
    }
  }

  lemma LastTurnKeepsUnits(s: State, w: nat, k: nat, gain: ubyte -> real)
    requires Safe(s, w) && 0 < k <= |s.objs| && Supplied(s, k)
    requires Units(UpdateFirst(s, w, k - 1, gain), w) && SameUnits(s, UpdateFirst(s, w, k - 1, gain))
    ensures Units(UpdateFirst(s, w, k, gain), w) && SameUnits(s, UpdateFirst(s, w, k, gain))
  {
    hide Turn, Matched;
    var m := UpdateFirst(s, w, k - 1, gain);
    assert m.objs[k - 1] == s.objs[k - 1];
    TurnKeepsUnits(m, w, k - 1, gain);
  }

  /** In an iteration of Game::run, when its turn comes a unit moves and anything else idles. */
  lemma UnitsAreNeverIdled(s: State, w: nat, dice: seq<int>, gain: ubyte -> real, k: nat)
    requires Units(s, w) && Dice(dice, |s.objs|) && k < |s.objs|
    ensures var turn := UpdateFirst(Feed(s, dice), w, k, gain).objs[k];
            && turn.objType == s.objs[k].objType
            && (if IsUnit(turn) then 1 <= NextAction(turn) <= 8 else NextAction(turn) == IDLE)
  {
  }

  /** In every run of Game::run with spawns and changes of terrain between iterations, units and
      unit tiles correspond one to one.  */
  lemma {:induction false} UnitsMatchTiles(s: State, w: nat, events: seq<Event>)
    requires Units(s, w)
    requires forall i :: 0 <= i < |events| ==> !events[i].Acts?
    ensures Units(After(s, w, events), w)
  {
    if events != [] {
      var before, e := events[..|events| - 1], events[|events| - 1];
      UnitsMatchTiles(s, w, before);
      var m := After(s, w, before);
      match e
      case Spawns(x, z, thing) => SpawnKeepsUnits(m, w, x, z, thing);
      case Reshapes(tiles) =>
        if OnlyTerrain(m.tiles, tiles) {
          assert Ids(tiles) == Ids(m.tiles);
          SameMatch(m, m.(tiles := tiles), w);
        }
      case Ticks(dice, gain) =>
        if Dice(dice, |m.objs|) {
          FeedKeepsUnits(m, w, dice);
          UpdateKeepsUnits(Feed(m, dice), w, |m.objs|, gain);
        }
    }
  }

  /** A run can start from a world on which nothing stands: what the generator plants on it are
      spawns, and all else it does is terrain.  */
  lemma EmptyWorldStarts(tiles: seq<Tile>, w: nat)
    requires |tiles| == w * w && forall t :: 0 <= t < |tiles| ==> tiles[t].thingId == 0
    ensures Units(State(tiles, []), w) && Things(tiles) == multiset{}
  {
  }

  /** Spawning in the middle of an iteration, after the queues are filled: a unit is then idled,
      so the correspondence breaks exactly when a unit is spawned and not on tile 0, the position
      it then records.  */
  lemma LateSpawn(s: State, w: nat, dice: seq<int>, gain: ubyte -> real, x: int, z: int, thing: ubyte)
    requires Units(s, w) && Dice(dice, |s.objs|)
    ensures var late := Spawn(Feed(s, dice), w, x, z, thing);
            Units(UpdateFirst(late, w, |late.objs|, gain), w) <==>
            thing != UNIT || !CanEnter(s.tiles, x + z * w) || x + z * w == 0
  {
    hide Matched, Turn;
    var fed, n := Feed(s, dice), |s.objs|;
    var late := Spawn(fed, w, x, z, thing);
    FeedKeepsUnits(s, w, dice);
    SpawnKeepsUnits(fed, w, x, z, thing);
    if thing == UNIT && CanEnter(s.tiles, x + z * w) {
      UpdateKeepsUnits(late, w, n, gain);
      var m := UpdateFirst(late, w, n, gain);
      assert m.objs[n] == late.objs[n];
      IdledUnit(m, w, n, gain);
    } else {
      UpdateKeepsUnits(late, w, |late.objs|, gain);
    }
  }

  /** A unit whose turn comes with an empty queue. */
  lemma IdledUnit(m: State, w: nat, n: nat, gain: ubyte -> real)
    requires Units(m, w) && n < |m.objs| && IsUnit(m.objs[n]) && m.objs[n].queue == []
    ensures Units(Turn(m, w, n, gain), w) <==> Pos(w, m.objs[n]) == 0
  {
    var r, p := Turn(m, w, n, gain), Pos(w, m.objs[n]);
    TurnOfOther(m.objs[n], m.tiles, w, gain);
    assert r.tiles[p].thingId == Ids(r.tiles)[p] == Ids(m.tiles)[p] == UNIT;
    if p == 0 {
      SameMatch(m, r, w);
    } else {
      assert !UnitAt(r, w, p) by {
        forall k | 0 <= k < |r.objs| && IsUnit(r.objs[k])
          ensures Pos(w, r.objs[k]) != p
        {
          assert k != n ==> r.objs[k] == m.objs[k] && IsUnit(m.objs[k]);
        }
      }
    }
  }
}
