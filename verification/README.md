# Verification of the game server's world, objects and sessions

A Dafny model of the server's world generation, of the objects that act on the map, and of the
login sessions, with proofs about it. `dafny verify dfyconfig.toml` checks the whole project.

## What is modelled

- **Water** (`WaterPools`, `Flooding`, `WaterGenerator`, `WaterProperties`). The depth first
  search with its restarts in lower tiles and its `waterLevel` reference, the fills, and the map
  of pool sizes. The map after any sequence of starts is proved equal to `Flooded`, a closed form
  over the original heights and the *set* of starts. So neither the order of the starts nor their
  repetition matters.
- **Fertility** (`Fertility`, `FertilityReach`, `EnvironmentGenerator`, `FertilityScores`). The waves of fertility
  weights. The loop over a wave picks its tiles in any order and is proved to compute one
  function of the state before the wave.
- **The other stages** (`Noise`, `NoiseFormulas`, `ElevationGenerator`, `RampGenerator`,
  `RampShapes`, `CliffGenerator`, `CliffTiles`, `TemperatureGenerator`) and all stages in order,
  with what each leaves on the finished map (`WorldGenerator`, `WorldStages`). The cliff and temperature
  stages read what they wrote before; each is proved equal to a function of the map before it,
  and what that function does to each tile is proved about it.
- **Objects** (`Objects`, `ObjectTurns`, `ObjectRuns`, `ObjectManager`). Spawning, the actions, the action
  queues, the update loop and one iteration of the game loop. `Objects` gives each as a function
  on states, `ObjectManager` has the classes, proved to compute those functions, and `ObjectRuns`
  has what holds over whole runs.
- **Sessions** (`Sessions`, `SessionServer`). The server's client and user maps and the users
  table, as a machine of atomic steps with one message thread and any number of other steps in
  between, and the handlers as methods proved to be runs of that machine.
- **Helpers** (`BitAreas`, `StringUtil`). The bit-area routines and string splitting.

## Assumptions

- A tile is a record of independent fields. The packed layout, in a header that is not part of
  this model, only has to keep the fields apart and to hold the values written.
- `transfer_obj_to` (same header) copies thing id, action and facing to the destination tile and
  clears them in the source tile.
- Directions are numbered N, NE, E, SE, S, SW, W, NW from 0, as the comments in
  EnvironmentGenerator.cpp and the diagonal loops in ElevationGenerator.cpp have it. Terrain type
  0, which the zeroed map starts with, is dirt, as the comment in MovementActions.cpp has it.
- Spawning ORs the initial state of an object into the tile. The initial state has only a thing id
  (src/game/objects/Object.cpp:110-111) and the tile has none, so this is setting the thing id.
- Floats are reals. Random numbers are parameters (start tiles, dice of the game loop, noise
  seeds, the stream `rand` of the cliff stage) or arbitrary choices (planting). The thing ids of
  the three plants are a parameter. Speed times time step is a parameter `gain` of
  the object type.
- `NULL_USER` and a user made by a map lookup are one value with an empty id, and a user is
  compared to it as a whole. The consistency results do not depend on this: they speak of users
  with nonempty ids.
- A database query succeeds or has no effect. Names and passwords select rows of the users table
  as they are. A new row has the defaults of build/data/init_db_tables.sql:31-40, and names are
  unique as they are there.
- `BitAreas` words are unsigned types at least as wide as int, which C++ does not promote to a
  signed type.

## Findings

- Spawning a unit on a free tile between the queue filling and the update of one iteration breaks
  the match between units and tiles, unless that is tile 0. Nothing else spawned there does, and
  neither does a unit that finds no room: `LateSpawn`.
- A disconnect leaves the user flagged as logged in for good: `DisconnectLocksOut`.
  `WhatStrands` gives the exact steps that do this.
- A disconnect while a login of that address is under way locks the user out in another way: the
  login ends in a session at an address with no client, and until that address is accepted again
  no login of the user succeeds and nobody can log the user out: `DisconnectDuringLogin`,
  `LockedOutUntilAccepted`. `WhatLocksOut` and `WhatFrees` give the exact steps that begin and
  end this, and `LockedOutOrConnected` says that no case is missed.
- A login is answered with a failure and yet flags and maps the user exactly when the user is
  let in and the faction query then fails, or gives several rows, or one row with an empty name
  or id: `UserLogin`.
- The water level stays at -1, which a comment in WaterGenerator.cpp:101 takes not to happen,
  exactly when the whole map is flat, and only then can a fill lower a tile: `NoRimIffFlat`,
  `NeverLowers`.
- A ramp from a tile of the map aims at the height of the neighbour it descends to, whatever the
  heights, exactly when all neighbours before that one in row order are on the map:
  `AimsRightIffNoGap`. Otherwise it aims at the height of another neighbour or at 0, which is
  right only where the two heights happen to agree: `GapAimsWrong` gives maps for every such
  place and direction where they do not, and `CornerAimsAtZero` is one of them.
- An observer update of a client that is gone by then maps its address to a user with an empty
  id, and the next client accepted there passes for one with a user. Beside the end of a login
  no other step maps an address without a client: `WhatMapsNobody`, `NextClientGetsIt`.
- `convert_area` leaves the bits outside the area as they were exactly when no bit is converted
  or the output has none set beyond the width of the input: `KeepsOutside`, `HighHalfCleared`.

## Model

| member | source | states |
|---|---|---|
| WaterGenerator.GenerateWaterArea | src/game/world/WaterGenerator.cpp:14-76 | terminates; the tiles returned are those of `Drain` and form a pool (a whole 4-connected plateau with nothing lower beside it); the level is the lowest rim height merged with the level passed in, whatever was gathered around abandoned plateaus |
| WaterGenerator.LookAround | src/game/world/WaterGenerator.cpp:45-71 | the tiles pushed, the first lower neighbour and the heights that enter the water level |
| WaterGenerator.VisitKeeps | src/game/world/WaterGenerator.cpp:30-73 | visiting one tile ends the search in a leak, or keeps what the search comes to, the rim gathered and the exploration invariant |
| Flooding.SearchFinds | src/game/world/WaterGenerator.cpp:25-75 | from any half-way state the search of a plateau ends in the whole component with no lower tile beside it, or in a tile lower than and next to it |
| Flooding.DrainIsPool | src/game/world/WaterGenerator.cpp:14-76 | with all its restarts the search ends in a pool |
| Flooding.DrainStable | src/game/world/WaterGenerator.cpp:14-76 | started from any tile of a pool the search returns that pool |
| Flooding.RimBelow | src/game/world/WaterGenerator.cpp:59-69 | the pool a tile drains to has a rim no higher than any higher neighbour of that tile |
| WaterGenerator.LeakRim | src/game/world/WaterGenerator.cpp:59-69 | heights gathered around an abandoned plateau do not change the final level |
| WaterProperties.NoRimIffFlat | src/game/world/WaterGenerator.cpp:93-102 | called with -1, the search leaves -1 exactly when the map is flat |
| WaterPools.ComponentIsPathConnected | src/game/world/WaterGenerator.cpp:12-13 | a component is exactly the set of tiles joined to it by a path of equal tiles |
| WaterPools.RimIsBorder | src/game/world/WaterGenerator.cpp:63-69 | the rim of a pool is all that borders it |
| Flooding.DrainSameShape | src/game/world/WaterGenerator.cpp:45-70 | the pool found depends only on the comparisons between adjacent tiles |
| Flooding.FloodedSameShape | src/game/world/WaterGenerator.cpp:104-112 | flooding keeps every comparison between adjacent tiles |
| Flooding.FloodedPoolsStay | src/game/world/WaterGenerator.cpp:89-116 | the pool and the rim level found from a start are the same before and after any flooding |
| Flooding.FloodStep | src/game/world/WaterGenerator.cpp:89-116 | one more fill of the flooded map is the map flooded from one more start |
| WaterProperties.FloodedTwice | src/game/world/WaterGenerator.cpp:89-116 | flooding a flooded map is flooding once from all the starts |
| WaterGenerator.FillPool | src/game/world/WaterGenerator.cpp:104-116 | every tile of the pool becomes water at the level and gets the pool size, and no other tile or entry changes |
| WaterGenerator.GenerateOneWater | src/game/world/WaterGenerator.cpp:91-116 | one round adds its start to the closed form, in the world and in the size map |
| WaterGenerator.GenerateWorldWaters | src/game/world/WaterGenerator.cpp:79-134 | the world and the size map are the closed form of the original map and the set of starts |
| WaterProperties.PoolsApart | src/game/world/WaterGenerator.cpp:94-116 | two pools are equal, or disjoint and not adjacent |
| WaterProperties.PoolsStayPools | src/game/world/WaterGenerator.cpp:94-116 | after any fills each pool is still one flat component strictly below all that borders it, and its border is untouched |
| WaterProperties.SizesAreComponentSizes | src/game/world/WaterGenerator.h:29-31 | the size map holds exactly the water tiles, each with the size of its 4-connected body of water |
| WaterProperties.NeverLowers | src/game/world/WaterGenerator.cpp:101-112 | no tile is lowered, if and only if the map is not flat, or is flat at 0, or there is no start |
| WaterProperties.WaterLevelIs | src/game/world/WaterGenerator.cpp:97-112 | water stands one below the lowest tile that borders its pool, or at 0 if none does |
| WaterProperties.StartSetIs | src/game/world/WaterGenerator.cpp:89-95 | the starts by column and row |
| WaterProperties.KeepsSummits | src/game/world/WaterGenerator.cpp:89-116 | a map that is not flat keeps its greatest height wherever it has it, and stays not flat |
| WaterProperties.FloodedBounded | src/game/world/WaterGenerator.cpp:106-112 | flooding exceeds no bound on the elevations |
| EnvironmentGenerator.InitialWeights | src/game/world/EnvironmentGenerator.cpp:135-174 | each water tile weighs a tenth of its pool size, and the tiles to check are exactly the land beside water |
| EnvironmentGenerator.WeighWater | src/game/world/EnvironmentGenerator.cpp:145-171 | one water tile: its weight and the land of the square around it |
| EnvironmentGenerator.LandAroundIs | src/game/world/EnvironmentGenerator.cpp:147-170 | the square around a water tile adds exactly the land among its eight index neighbours |
| EnvironmentGenerator.InitialOk | src/game/world/EnvironmentGenerator.cpp:135-174 | every first tile to check has a weighted neighbour, and the weights are bounded by the largest pool |
| EnvironmentGenerator.ScoreTile | src/game/world/EnvironmentGenerator.cpp:205-261 | the sum, the count and the new tiles of one tile |
| FertilityScores.ScoreIsMean | src/game/world/EnvironmentGenerator.cpp:182-259 | the score is the mean of what the weighed neighbours give: their weight less 2 for a diagonal step, and for a straight one less 0 in the first wave and 1 later, times 3 where it is hot and 5 where it is burning |
| FertilityScores.LoneNeighbour | src/game/world/EnvironmentGenerator.cpp:205-259 | the score of a tile with one weighed neighbour, for each of the eight offsets and all temperatures |
| FertilityScores.WaveIs | src/game/world/EnvironmentGenerator.cpp:198-301 | which tiles a wave weighs and with what, which turn fertile, and which are to be checked next |
| FertilityScores.InitialIs | src/game/world/EnvironmentGenerator.cpp:135-174 | the weights and the tiles to check before the first wave, tile by tile |
| FertilityScores.PlantsByTemperature | src/game/world/EnvironmentGenerator.cpp:76-97 | which plant grows at which temperature |
| EnvironmentGenerator.ScoreDuring | src/game/world/EnvironmentGenerator.cpp:203-261 | the score of a tile is the same whichever tiles of the wave came before it |
| EnvironmentGenerator.CheckTile | src/game/world/EnvironmentGenerator.cpp:203-294 | one tile of the wave: weight, terrain and new tiles are those of the wave with that tile added |
| EnvironmentGenerator.RunWave | src/game/world/EnvironmentGenerator.cpp:198-298 | in every order of its tiles a wave gives the same weights, terrain and next frontier |
| Fertility.WaveKeepsOk | src/game/world/EnvironmentGenerator.cpp:222-263 | the frontier stays unweighted land on the map, and each of its tiles has a weighted neighbour outside it, so the count is never 0 |
| Fertility.WaveLeaves | src/game/world/EnvironmentGenerator.cpp:296-298 | no tile of a wave is in the next one |
| Fertility.WaveProgress | src/game/world/EnvironmentGenerator.cpp:198-301 | a wave weighs some tile or is the last one |
| FertilityReach.AverageIsReached | src/game/world/EnvironmentGenerator.cpp:259-263 | the final score is at most the term of some counted neighbour |
| FertilityReach.WeightDrops | src/game/world/EnvironmentGenerator.cpp:243-263 | a new weight is at most that of a neighbour weighted before, and after the first wave at least 1 less |
| FertilityReach.WavesReach | src/game/world/EnvironmentGenerator.cpp:182-301 | no tile is weighted twice; exactly the newly weighted tiles other than rock turn fertile; weights lie in (0, M]; water is fewer than M + 1 index steps away |
| EnvironmentGenerator.AttemptPlant | src/game/world/EnvironmentGenerator.cpp:61-109 | one throw in five puts the plant of the temperature on the tile, if nothing is on it; nothing else changes |
| EnvironmentGenerator.GenerateEnvironment | src/game/world/EnvironmentGenerator.cpp:112-302 | terminates, with the weights and terrain of all the waves; what is put on tiles are plants that grow at their temperature, on fertile tiles that were free, and nothing else changes |
| TemperatureGenerator.TemperatureScore | src/game/world/TemperatureGenerator.cpp:35-42 | the score is one of the seven keys of the temperature map |
| TemperatureGenerator.ColderUpAndAway | src/game/world/TemperatureGenerator.cpp:35-42 | it is never warmer higher up and farther from the equator |
| TemperatureGenerator.TemperatureExactly | src/game/world/TemperatureGenerator.cpp:14-44 | the temperature from the distance to the equator and the height, in whole numbers |
| TemperatureGenerator.WaterAroundIs | src/game/world/TemperatureGenerator.cpp:54-69 | the count of water is the number of places with water from 3 before to 2 after the tile, in both coordinates |
| TemperatureGenerator.TemperTile | src/game/world/TemperatureGenerator.cpp:29-71 | the temperature, and dunes exactly where it is burning, not rock and fewer than 3 of the 36 tiles are water |
| TemperatureGenerator.NearWaterCount | src/game/world/TemperatureGenerator.cpp:54-69 | counts the water tiles of the square |
| TemperatureGenerator.EachTurn | src/game/world/TemperatureGenerator.cpp:25-73 | each tile changes once, as the map just before its turn has it |
| TemperatureGenerator.DunesExactly | src/game/world/TemperatureGenerator.cpp:47-71 | a tile ends as dunes exactly if it is burning, was not rock, and fewer than 3 of the 36 tiles were water at its turn |
| TemperatureGenerator.WaterDries | src/game/world/TemperatureGenerator.cpp:54-71 | the turns raise no count of water |
| TemperatureGenerator.GenerateTemperatureEffect | src/game/world/TemperatureGenerator.cpp:12-75 | the whole pass is the turns of all tiles in index order |
| Noise.SamplesInRange | src/utils/Algorithm.cpp:58-66 | all sample positions are on the map and the mixing amounts in [0, 1) |
| Noise.OctaveWithin | src/utils/Algorithm.cpp:68-71 | an octave lies between the least and the greatest seed |
| Noise.OctaveInterpolates | src/utils/Algorithm.cpp:58-71 | at its sample points an octave is the seed |
| Noise.NoiseWithin | src/utils/Algorithm.cpp:53-80 | each result lies between the least and the greatest seed times the ratio of the sum of the scale factors to the integer count |
| Noise.NoiseOf | src/utils/Algorithm.cpp:53-78 | the octave loop with its scale factor and integer count computes `NoiseAt` |
| Noise.GenerateNoise | src/utils/Algorithm.cpp:43-87 | every entry of the result is the noise at its tile |
| NoiseFormulas.IntervalHalves | src/utils/Algorithm.cpp:53-57 | the samples of the first octave are a map width apart, and each octave halves that |
| NoiseFormulas.OctaveIsBilinear | src/utils/Algorithm.cpp:58-71 | between its sample points an octave is the mean of the four around, weighted by the areas across |
| NoiseFormulas.BroadNoise | src/utils/Algorithm.cpp:53-78 | with 5 octaves and divisor 0.4 the noise is the sum of the octaves times 1, 2.5, 6.25, 15.625 and 39.0625, over 64 |
| NoiseFormulas.DetailNoise | src/utils/Algorithm.cpp:53-78 | with 7 octaves and divisor 0.05 the factors are the powers of 20, over 67368422 |
| ElevationGenerator.RatioBroad | src/game/world/ElevationGenerator.cpp:208 | for 5 octaves and divisor 0.4 the ratio is 64.4375 to 64 |
| ElevationGenerator.RatioDetail | src/game/world/ElevationGenerator.cpp:210 | for 7 octaves and divisor 0.05 the ratio is at most 1 |
| ElevationGenerator.ElevationInRange | src/game/world/ElevationGenerator.cpp:205-236 | with the parameters used every elevation is a multiple of 4 from 0 to 28 |
| ElevationGenerator.ElevationMonotone | src/game/world/ElevationGenerator.cpp:224-227 | higher noise gives no lower elevation |
| NoiseFormulas.ElevationIsNearest | src/game/world/ElevationGenerator.cpp:224-227 | the elevation is the multiple of 4 nearest to 28 times three quarters of the broad and one quarter of the detailed noise |
| NoiseFormulas.NoiseMapIs | src/game/world/ElevationGenerator.cpp:205-236 | the first seeds make the broad map and the second the detailed one, tile by tile |
| ElevationGenerator.GenerateWorldElevation | src/game/world/ElevationGenerator.cpp:205-236 | every tile has the elevation of its noise, and nothing else changes |
| RampGenerator.LookAtNeighbours | src/game/world/ElevationGenerator.cpp:29-65 | the heights are those of the neighbours on the map, packed in row order, and each of the four weights is 2^n - 1 for n low neighbours on that side |
| RampGenerator.ChooseDirection | src/game/world/ElevationGenerator.cpp:72-92 | the best of the eight weights that come from the four given |
| RampGenerator.BestIsFirstGreatest | src/game/world/ElevationGenerator.cpp:81-91 | the best is the first of the greatest |
| RampShapes.HeaviestWins | src/game/world/ElevationGenerator.cpp:26-92 | the ramp goes in the first of the heaviest directions: sides weigh 0, 1, 3 or 7 by their tiles at least 2 below, and diagonals one more than half of their two sides, if that half is not 0 |
| RampGenerator.TableIsRight | src/game/world/ElevationGenerator.cpp:65-69 | the table finds the position of the neighbour in a direction if and only if all neighbours before it in row order are on the map |
| RampGenerator.TableIsRightIffNoGap | src/game/world/ElevationGenerator.cpp:65-95 | if and only if, the height it finds is that neighbour's on every map |
| RampGenerator.NoGapAimsRight | src/game/world/ElevationGenerator.cpp:65-95 | then the ramp aims at the height of the neighbour it descends to |
| RampGenerator.DentedChooses | src/game/world/ElevationGenerator.cpp:49-92 | a ramp from a tile of the map descends to the only neighbour that is low enough, in each of the eight directions |
| RampGenerator.AimsRightIffNoGap | src/game/world/ElevationGenerator.cpp:29-95 | a ramp from a tile of the map aims at the height of the neighbour it descends to on every map if and only if all neighbours before that one are on the map |
| RampGenerator.GapAimsWrong | src/game/world/ElevationGenerator.cpp:29-95 | if not, then a ramp down to the only low neighbour aims at the height of another neighbour or at 0 and not at that neighbour's |
| RampGenerator.DescendsOnMap | src/game/world/ElevationGenerator.cpp:44-92 | from a tile of the map with a low enough neighbour the ramp descends to a neighbour on the map |
| RampGenerator.CornerAimsAtZero | src/game/world/ElevationGenerator.cpp:29-95 | in the north-west corner, with the east at 4 and all else at 8, the ramp goes east and aims at 0 |
| RampGenerator.RampShape | src/game/world/ElevationGenerator.cpp:116-178 | no tile is two cells of a ramp, each cell ends as far below the start as its place says unless that is below the target, and no other tile changes |
| RampGenerator.RampWithin | src/game/world/ElevationGenerator.cpp:164-176 | what a ramp writes are elevations between its target height and its start height |
| RampShapes.RampTiles | src/game/world/ElevationGenerator.cpp:97-176 | each tile of the ramp, in coordinates from its start, ends as far below the start as its row, and on a diagonal its place along it, say, unless that is below the target |
| RampShapes.RampNowhereElse | src/game/world/ElevationGenerator.cpp:97-176 | no other tile changes |
| RampShapes.RowsLead | src/game/world/ElevationGenerator.cpp:116-162 | each row lies one step further in the chosen direction, with the start in the middle of the first |
| RampShapes.StraightDescent | src/game/world/ElevationGenerator.cpp:116-178 | a straight ramp goes down by 2 with each step towards its direction and leaves the tiles behind the start alone |
| RampGenerator.CreateRamp | src/game/world/ElevationGenerator.cpp:13-180 | cuts the ramp with the direction, place, width and target height found at the start |
| CliffGenerator.VisitPair | src/game/world/ElevationGenerator.cpp:253-292 | a cliff turns both tiles to rock, one in twenty gets a ramp and both turn to dirt; without a cliff nothing changes and nothing is drawn |
| CliffGenerator.CarvedKeeps | src/game/world/ElevationGenerator.cpp:240-297 | whatever is rolled, elevations keep their bound, types turn only to rock or dirt, nothing else changes |
| CliffGenerator.RockOnCliffs | src/game/world/ElevationGenerator.cpp:240-297 | when no ramp is rolled, exactly the tiles of the cliffs of the map before turn to rock, and nothing else changes |
| CliffTiles.OnCliffIs | src/game/world/ElevationGenerator.cpp:240-262 | the tiles of the cliffs in coordinates: a tile of the map and one beside it that is higher by the threshold or more |
| CliffTiles.VisitIs | src/game/world/ElevationGenerator.cpp:258-290 | one look at a tile beside another: what is drawn, and the types of all tiles |
| CliffTiles.VisitCutsRamp | src/game/world/ElevationGenerator.cpp:272-290 | on a roll of 1 modulo 20 a ramp of width 1 to 5 is cut from the upper tile |
| CliffGenerator.LastCliffDecides | src/game/world/ElevationGenerator.cpp:260-290 | whatever is rolled, a tile ends as dirt if the last cliff found at it got a ramp, and as rock if not |
| CliffGenerator.NoTurnKeeps | src/game/world/ElevationGenerator.cpp:260-290 | a tile at which no cliff is found keeps its type |
| CliffGenerator.QuietWithoutCliffs | src/game/world/ElevationGenerator.cpp:240-297 | no random number is drawn if and only if the map has no cliff, and then nothing changes |
| CliffGenerator.GenerateWorldCliffs | src/game/world/ElevationGenerator.cpp:240-297 | the whole pass is the visits of all tiles and their neighbours in order, each seeing the ramps before it |
| WorldGenerator.FloodedIsWatered | src/game/world/WorldGenerator.cpp:33-34 | after the water stage each water tile is in the size map with at least 1 |
| WorldGenerator.TemperedIsWatered | src/game/world/WorldGenerator.cpp:36 | the temperature stage makes no water and no fertile land |
| WorldGenerator.CarvedIsWatered | src/game/world/WorldGenerator.cpp:35 | the cliff stage makes no water and no fertile land |
| WorldGenerator.EnvironmentGrows | src/game/world/WorldGenerator.cpp:37 | fertile is exactly the land other than rock with a weight, and every weighted tile is close to water in proportion to the largest pool |
| WorldStages.CarvedLeaves | src/game/world/WorldGenerator.cpp:35 | after the cliff stage a tile is rock exactly if the last cliff found at it got no ramp, and if no roll asks for one, exactly if it is at a cliff of the flooded map, with all heights as flooded |
| WorldStages.TemperedLeaves | src/game/world/WorldGenerator.cpp:36 | after the temperature stage every tile has the temperature of its row and height, and dunes where it is dry |
| WorldStages.EnvironmentLeaves | src/game/world/WorldGenerator.cpp:37 | the environment stage keeps both, but for weighted land, which is fertile unless it is rock |
| WorldGenerator.GenerateWorld | src/game/world/WorldGenerator.cpp:23-38 | from the zeroed map all stages run without a failing lookup, elevations stay within 28, the pool sizes are those of the noise map and the set of starts, the fertile land is as above, and the finished map bears the marks of the water, cliff, temperature and environment stages |
| ObjectManager.ValidateMove | src/game/objects/actions/MovementActions.cpp:18-49 | a tile can be entered if it is on the map by its index and free |
| ObjectManager.MoveRun | src/game/objects/actions/MovementActions.cpp:62-140 | computes `RunMove` on the object and the world |
| ObjectTurns.MoveTakesTime | src/game/objects/actions/MovementActions.cpp:130-138 | turn after turn, until the progress is 1, a move adds its gain, shows itself on the tile in its direction and is not popped |
| ObjectTurns.MoveArrives | src/game/objects/actions/MovementActions.cpp:121-129 | at the first turn that begins with a progress of 1 or more the object and its thing are one step on and the action is popped |
| ObjectTurns.BlockedMove | src/game/objects/actions/MovementActions.cpp:101-115 | a move off the map or to a taken tile fails, is popped and loses its progress, and changes no tile |
| ObjectTurns.IdleTurn | src/game/objects/actions/CommonActions.cpp:14-22 | a turn with nothing queued, or with the idle action |
| ObjectRuns.DirectionsReachNeighbours | src/game/objects/actions/MovementActions.cpp:67-97 | the eight directions lead to the eight tiles around, one each |
| ObjectRuns.MoveThereAndBack | src/game/objects/actions/MovementActions.cpp:99-128 | a completed move takes the object fields along and nothing of the terrain; the opposite move undoes it |
| ObjectManager.MoveVerticalRun | src/game/objects/actions/MovementActions.cpp:148-205 | computes `RunMoveVertical` |
| ObjectTurns.LiftTakesTime | src/game/objects/actions/MovementActions.cpp:194-203 | turn after turn, until the progress is 1, a vertical move adds its gain, shows itself and is not popped |
| ObjectTurns.LastOfLift | src/game/objects/actions/MovementActions.cpp:154-192 | then the ground is dug, tile by tile, the tile of the object is idle and the action is popped |
| ObjectManager.DigGround | src/game/objects/actions/MovementActions.cpp:162-188 | the two loops compute the ground effect, cell by cell |
| ObjectTurns.DigIs | src/game/objects/actions/MovementActions.cpp:162-188 | a tile is lowered once for each of the 21 places it is dug from, down to 0, and is dirt then |
| ObjectRuns.DigFrame | src/game/objects/actions/MovementActions.cpp:162-188 | the ground effect lowers and turns to dirt, and does nothing else |
| ObjectManager.IdleRun | src/game/objects/actions/CommonActions.cpp:14-22 | computes `RunIdle`, which records position (0, 0) |
| ObjectRuns.ActionKeepsThings | src/game/objects/actions/MovementActions.cpp:62-205 | no action creates, destroys or changes a thing, even from a stale position |
| ObjectManager.ObjectInstanceData.SetPos | src/game/objects/Object.h:49-54 | sets position and state and leaves the type |
| ObjectManager.ObjectInstanceData.SetState | src/game/objects/Object.h:55-59 | sets the state and the type from it |
| ObjectManager.Game.SpawnObjectRaw | src/game/objects/ObjectManager.cpp:51-78 | spawns on a free tile of the map and does nothing otherwise |
| ObjectManager.Game.SpawnObject | src/game/objects/ObjectManager.cpp:80-97 | the same by library entry, never entry 0 |
| ObjectTurns.SpawnIs | src/game/objects/ObjectManager.cpp:51-78 | what a spawn puts on the tile and in the list |
| ObjectManager.UpdateObject | src/game/objects/ObjectManager.cpp:133-160 | one object: idle if nothing is queued, run the front, pop unless pending |
| ObjectManager.Game.SetTileState | src/game/Game.cpp:451-476 | a change of terrain sets the tiles of the square by index, and nothing but terrain |
| ObjectManager.InSquareIs | src/game/Game.cpp:451-476 | which tiles are in the square |
| ObjectManager.Game.UpdateFunc | src/game/objects/ObjectManager.cpp:131-161 | updates the objects one after the other |
| ObjectTurns.PassInOrder | src/game/objects/ObjectManager.cpp:131-161 | each object acts on what those before it in the list left |
| ObjectManager.Game.RunOnce | src/game/Game.cpp:109-148 | one iteration fills the queues of units and updates |
| ObjectTurns.FeedIs | src/game/Game.cpp:114-125 | a unit with fewer than two actions queued gets its draw at the end of the queue |
| ObjectRuns.ThingsAreConserved | src/game/objects/ObjectManager.cpp:51-161 | over all runs of spawns, changes of terrain and actions in any order the things on the grid are those spawned, and positions stay on the map |
| ObjectRuns.UnitsAreNeverIdled | src/game/Game.cpp:114-148 | in an iteration each unit gets a move when its turn comes, and everything else idles |
| ObjectRuns.UnitsMatchTiles | src/game/Game.cpp:105-155 | over all runs of the game loop, with spawns and changes of terrain between iterations, units and unit tiles correspond one to one |
| ObjectRuns.EmptyWorldStarts | src/game/Game.cpp:44-60 | the correspondence holds for a world with nothing on it, from which generating is spawns and changes of terrain |
| ObjectRuns.LateSpawn | src/game/Game.cpp:114-148 | after a spawn between queue filling and update the correspondence holds if and only if it is no unit, or finds no free tile, or stands on tile 0 |
| Sessions.SessionsStayConsistent | src/msgs/General.cpp:53-95 | in every interleaving each mapped user with an id is flagged in the database and mapped from one address |
| Sessions.NamesStayUnique | src/msgs/General.cpp:63-71 | in every run credentials select at most one row, so the branch for several is never taken |
| Sessions.RegisterThenLogin | src/msgs/General.cpp:225-290 | a registration with a new name makes a row that its credentials select; a taken name changes nothing |
| Sessions.InvAtStart | src/Server.cpp:28-31 | it holds when the server starts, whoever is flagged |
| Sessions.InvStep | src/Server.cpp:226-294 | every atomic step keeps this and what the handler under way relies on |
| Sessions.StrandedForever | src/Server.cpp:373-399 | a user flagged without a session stays so in every run |
| Sessions.DisconnectLocksOut | src/Server.cpp:373-399 | after a disconnect of a mapped user every later login of that user is turned away, and nobody can log the user out |
| Sessions.WhatStrands | src/Server.cpp:236-294 | a mapped user is stranded exactly by a disconnect, or by another login from the same address |
| Sessions.WhatLocksOut | src/Server.cpp:236-399 | a user becomes locked out exactly by a disconnect of its address in a session or after its login set the flag, by a flag set for an address already gone, or by another login from its address |
| Sessions.WhatFrees | src/Server.cpp:236-399 | of all steps only an accept of that address ends it, and only if the user is not stranded |
| Sessions.LockedOutUntilAccepted | src/Server.cpp:236-399 | in every run without that accept the user stays locked out, every login is turned away and nobody can log the user out |
| Sessions.DisconnectDuringLogin | src/Server.cpp:236-241 | so it is after a disconnect between the flag and the mapping of a login |
| Sessions.LockedOutOrConnected | src/Server.cpp:243-294 | between messages a flagged user is locked out if and only if no client can log the user out |
| Sessions.LoginGetsThere | src/msgs/General.cpp:52-95 | from the start of the server a login reaches both states from which a disconnect locks the user out |
| Sessions.WhatMapsNobody | src/Server.cpp:236-408 | of all steps exactly the end of a login and an observer update, at an address that is gone, map an address without a client |
| Sessions.NextClientGetsIt | src/Server.cpp:401-408 | the user made by such an update has no id, and the next client at that address can log it out |
| SessionServer.SessionServer.GetUserOf | src/Server.cpp:226-233 | the mapped user, or the null user |
| SessionServer.SessionServer.LoginUser | src/Server.cpp:236-241 | maps the address to the user |
| SessionServer.SessionServer.Logout | src/Server.cpp:243-294 | clears flag and mapping together, only for a connected and mapped address and if the query succeeds |
| SessionServer.SessionServer.Disconnected | src/Server.cpp:373-399 | removes client and mapping together |
| SessionServer.SessionServer.UpdateObserved | src/Server.cpp:401-408 | updates the mapped user, creating an empty one if there is none |
| SessionServer.SessionServer.CheckCredentials | src/msgs/General.cpp:52-91 | passes exactly if one row, and no other, has this name and this password and it is not flagged, and gives that user |
| SessionServer.SessionServer.UserLogin | src/msgs/General.cpp:38-187 | is a run of the machine; success means the only row with this name and this password was not flagged and its user is flagged and mapped now; that user is so exactly when the first two queries do well, so a failure is answered with somebody newly flagged exactly when only the faction is not in order; without such a row the answer is a failure and nothing changes |
| SessionServer.SessionServer.UserLogout | src/msgs/General.cpp:192-222 | is a run of the machine; answers only when the mapping is gone, saves the position of the mapped user if that query does well, clears the flag of that user exactly when it answers, and changes no other row |
| SessionServer.SessionServer.UpdateObserver | src/msgs/General.cpp:289-309 | is a run of the machine; a user found at the address is there afterwards at the new place, without its id if the client went in between |
| BitAreas.IsSet | src/BitShit.hpp:15-20 | reads a bit by shift and mask |
| BitAreas.SetBit | src/BitShit.hpp:24-30 | clear under a mask and set is an update of one bit |
| BitAreas.SetArea | src/BitShit.hpp:35-49 | the area holds the low bits of the input, the rest is unchanged |
| BitAreas.ConvertArea | src/BitShit.hpp:53-66 | the low bits of the output are the area; the others are kept, but those beyond the width of the input are cleared if a bit is converted |
| BitAreas.KeepsOutside | src/BitShit.hpp:53-66 | all bits outside the area are kept if and only if none is converted, or none is set beyond the width of the input |
| BitAreas.HighHalfCleared | src/BitShit.hpp:60-64 | one bit read from a 32-bit word clears the high half of a full 64-bit word |
| BitAreas.AreaRoundTrip | src/BitShit.hpp:35-66 | reading back what was written gives the written bits |
| BitAreas.AreasCommute | src/BitShit.hpp:35-49 | writes to disjoint areas commute |
| StringUtil.Split | src/utils/StringUtil.cpp:6-22 | no piece contains the delimiter, each piece ends at the first delimiter, and joining gives back the string, with an empty last piece dropped |

## Left out

- The objects that planting appends to the list of objects; their tiles are modelled.
- The fertility weights are a static map in the program; the model is of its one call, with an empty map.
- The packed 64-bit tile word, and number ranges of its fields.
- Rounding of floats, and the least noise value, which has no reader.
- The one-dimensional noise, which is not called.
- `ClassAction0` and ship deployment, which the game loop never queues.
- The multi-tile branch of `validate_move`, which has no caller.
- Data races on the world array between the game thread and spawns by message: spawns are whole steps.
- Lookup of an object by its name, object info loading, factions and their messages.
- The checks of administrator messages, and registration messages (a new row is a step of the machine).
- Sockets, message framing, threads as such, and SQL text.
- `split` with an empty delimiter, which does not terminate.
