# CG-Assignment runner core, modelled in Dafny

CG-Assignment is an endless-runner game written in C++ on Direct3D 12. A duck
runs down a road of terrain tiles, dodges obstacles and is chased by a farmer.
This project models the game's core in Dafny and proves properties of the
model:

- **Skeletal animation** (`animation.dfy`, module `SkeletalAnimation`,
  after `Animation.h`). The bone hierarchy, keyframe sampling and the
  time-to-frame mapping are modelled. `AnimationInstance` is a class with its
  two 256-entry palettes as arrays. Its `update` and `findWorldMatrix` loops
  are proved against a value-level world pose, which composes each bone's
  local transform with its parent's.
- **Cross-fade state machine** (`statemachine.dfy`, module
  `AnimationStateMachine`, after `StateMechine.h`). It holds a current, a next
  and a blended output instance. `changeState`, `update` and
  `isAnimationFinished` are modelled as methods on a `StateMachine` class. Each
  method is tied to a pure transition function, and lemmas about those
  functions state the blending and looping rules.
- **Terrain tiles and streaming** (`terrain.dfy`, `levelconfig.dfy` and
  `manager.dfy`, after `GameObject.h`). Covered are:
  - obstacles and their collision flag;
  - the grass-buffer capacity policy;
  - obstacle and decoration placement;
  - the level-file parser;
  - the configuration dealer;
  - the ring of tiles that `TerrainManager` lays out, recycles and checks for
    collisions.
- **One frame of play** (`game.dfy`, module `Gameplay`, after `Game.cpp` and
  the `MoveAnimatedModel` class of `GameObject.h`). It covers hit counting,
  the hit reaction, game over, and the farmer's walk and grab.
- **GPU-side supporting code**, modelled without the device:
  - `shaders.dfy` (`Shaders.h`): the constant-buffer ring, its 256-byte slot
    rounding and the shader registry;
  - `texture.dfy` (`Texture.h`): the texture upload row pitch and row copy,
    and the texture cache;
  - `material.dfy` (`Material.h`): texture lookup for materials;
  - `environment.dfy` (`Environment.h`): the vertex and index loops of the
    skybox, grass patch and distant layer, and the guards of the grass draw
    call.

The remaining modules are support code. `maths.dfy` holds the matrix,
quaternion and vector arithmetic of `Maths.h`, and `options.dfy` holds
`Option`.

Conventions used throughout the model:

- A C++ `float` is a Dafny `real`.
- `sinf`, `acosf` and `sqrtf` are uninterpreted functions.
- Values from `rand()`, decoded image files and the level file's lines are
  parameters.
- `unsigned int` arithmetic wraps explicitly where the source can overflow.

## Model

| member | source | states |
|---|---|---|
| SkeletalAnimation.BoneIndex | Animation.h:20-30 | the index of the first bone with that name, or -1 exactly when no bone has it |
| SkeletalAnimation.FindBone | Animation.h:20-30 | the linear search returns the first match, -1 when there is none |
| SkeletalAnimation.Duration | Animation.h:52-55 | duration times ticks per second is the frame count, and it is never negative |
| SkeletalAnimation.CalcFrame | Animation.h:56-62 | the frame is the floor of t·ticksPerSecond clamped to the last frame, never negative for t ≥ 0, and the interpolation factor is t·ticksPerSecond minus its floor, taken before the clamp, so it lies in [0, 1) |
| SkeletalAnimation.NextFrame | Animation.h:71-74 | the following frame, held at the last one, and never before the frame given |
| SkeletalAnimation.RunningIff | Animation.h:63-70 | a clip is running exactly when t·ticksPerSecond lies in [0, frame count); a negative floored frame compares as a huge unsigned value, so the clip is not running before its start |
| SkeletalAnimation.FinishedVersusRunning | Animation.h:172-179 | a finished clip is not running; a clip neither running nor finished sits exactly at its duration or at a negative time, and every negative time is such a case; `running` is at Animation.h:63-70 |
| SkeletalAnimation.UnfinishedFrameInRange | Animation.h:56-62 | for t ≥ 0 both the sampled frame and its successor index existing frames; `nextFrame` is at Animation.h:71-74 |
| SkeletalAnimation.InterpolateIsCompose | Animation.h:75-87 | a bone's global transform is its interpolated local transform, times its parent's entry when it has one |
| SkeletalAnimation.CalcTransforms | Animation.h:107-113 | every bone entry becomes offset · entry · globalInverse · coordTransform; entries past the last bone are left alone |
| SkeletalAnimation.PoseUpToKeepsRest | Animation.h:159-165 | the bone loop writes only the entries of bones it has reached |
| SkeletalAnimation.PoseUpToInOrder | Animation.h:159-165 | bone j is evaluated against the palette as bones 0 .. j-1 left it; each step is `interpolateBoneToGlobal` (Animation.h:75-87) |
| SkeletalAnimation.Ancestors | Animation.h:180-189 | the chain starts at the bone, holds only valid bone indices and follows parent links up to the root |
| SkeletalAnimation.WorldPoseSteps | Animation.h:75-87 | a bone's world pose does not depend on how many steps were allowed to reach the root |
| SkeletalAnimation.ParentsFirstReachesRoot | Animation.h:180-189 | when every parent precedes its child, bone i reaches the root within i + 1 steps |
| SkeletalAnimation.PoseUpToIsWorldPose | Animation.h:159-165 | with parents stored first, the in-order bone loop leaves every bone at its world pose; each step is `interpolateBoneToGlobal` (Animation.h:75-87) |
| SkeletalAnimation.FreshInstance | Animation.h:124-132 | a new instance holds two 256-entry palettes |
| SkeletalAnimation.InstanceUpdate | Animation.h:145-167 | after `update` the instance plays the requested clip |
| SkeletalAnimation.UpdatePalette | Animation.h:145-167 | the same clip advances its clock by dt, a new clip starts at 0; a finished clip leaves the palette untouched; otherwise bone k becomes offset · global · globalInverse · coordTransform and entries past the last bone keep their value |
| SkeletalAnimation.UpdateMatchesWorldPose | Animation.h:145-167 | with parents first, an unfinished update leaves each bone at its world pose, independent of the previous palette |
| SkeletalAnimation.BoneChain | Animation.h:180-189 | the loop collects exactly the bone's ancestor chain |
| SkeletalAnimation.ChainFromOffChain | Animation.h:190-196 | evaluating the chain writes no entry outside it |
| SkeletalAnimation.AncestorsLinked | Animation.h:180-189 | each chain entry's parent is the next entry, and the last one is a root |
| SkeletalAnimation.ChainFromIsWorldPose | Animation.h:190-196 | evaluating a chain root first leaves each chain bone at its world pose |
| SkeletalAnimation.ChainEvaluatesWorldPose | Animation.h:180-196 | evaluating a bone's ancestor chain leaves that bone at its world pose |
| SkeletalAnimation.AnimationInstance.constructor | Animation.h:124-132 | a new instance with fresh palettes and no asset |
| SkeletalAnimation.AnimationInstance.Init | Animation.h:133-144 | binds the asset; only fromYZX == 1 replaces the coordinate transform with the Y/Z swap |
| SkeletalAnimation.AnimationInstance.CurrentLocals | Animation.h:145-167 | the local transforms at the current clip time, one per bone |
| SkeletalAnimation.AnimationInstance.ResetAnimationTime | Animation.h:168-171 | only the clock changes, and it becomes 0 |
| SkeletalAnimation.AnimationInstance.Update | Animation.h:145-167 | the clock advances by dt on the same clip and restarts at 0 on a new one, and the palette becomes the one `InstanceUpdate` describes |
| SkeletalAnimation.AnimationInstance.EvaluateBones | Animation.h:159-165 | the bone loop leaves the palette the in-order evaluation describes |
| SkeletalAnimation.AnimationInstance.FindWorldMatrix | Animation.h:180-198 | returns the bone's world pose times the coordinate transform, and writes only the chain's entries of `matricesPose` |
| SkeletalAnimation.AnimationInstance.EvaluateChain | Animation.h:190-196 | the root-first loop over the chain leaves `matricesPose` as the chain evaluation describes |
| AnimationStateMachine.BlendWeight | StateMechine.h:179-181 | the weight is blendTime / blendDuration clamped to [0, 1]: the ratio itself inside, 0 below, 1 above |
| AnimationStateMachine.BlendEndpoints | StateMechine.h:189-192 | weight 0 gives the first matrix and weight 1 the second |
| AnimationStateMachine.BlendSame | StateMechine.h:189-192 | blending a matrix with itself gives it back at any weight |
| AnimationStateMachine.BlendBetween | StateMechine.h:189-192 | with a weight in [0, 1] each blended component lies between the two inputs |
| AnimationStateMachine.Bind | StateMechine.h:46-55 | binding an asset keeps the machine invariant and records the asset |
| AnimationStateMachine.AfterChange | StateMechine.h:61-103 | every branch of `changeState` keeps the machine invariant |
| AnimationStateMachine.AfterUpdate | StateMechine.h:105-149 | `update` keeps the machine invariant |
| AnimationStateMachine.Tick | StateMechine.h:137-145 | the blend clock step keeps the invariant, and a blend still running has its clock in [0, length) |
| AnimationStateMachine.Calculated | StateMechine.h:171-195 | computing the output palette keeps the machine invariant |
| AnimationStateMachine.Advance | StateMechine.h:112-121 | an instance step plays the named clip on the same asset |
| AnimationStateMachine.ChangeToUnknownIgnored | StateMechine.h:63-67 | a clip the asset lacks leaves the machine unchanged |
| AnimationStateMachine.ChangeToSameOnlySetsLoop | StateMechine.h:70-75 | asking for the steady current state changes only its loop flag; its clock keeps running |
| AnimationStateMachine.FirstStateNoBlend | StateMechine.h:84-96 | the first state makes current, next and output the new clip, from time 0 unless the instance already held it, with no blend |
| AnimationStateMachine.ChangeDuringBlendCommits | StateMechine.h:77-102 | a request during a blend first commits the target, then blends to the new clip from 0 with the target clock rewound |
| AnimationStateMachine.ChangeStartsBlend | StateMechine.h:84-102 | from a steady state a new clip starts a blend of the requested length with the target clock rewound; current state and output stay |
| AnimationStateMachine.ChangeStateReportsTarget | StateMechine.h:61-103 | after any request for a clip the asset has, `getState` reports that clip; `getState` is at StateMechine.h:158-161 |
| AnimationStateMachine.UpdateWithoutAsset | StateMechine.h:107 | without an asset `update` changes nothing |
| AnimationStateMachine.UpdateBlendClock | StateMechine.h:125-146 | the blend clock advances by dt, the blend ends exactly when it reaches the blend length, and then the target's instance, name and loop flag become current and the output is that instance |
| AnimationStateMachine.UpdateSteady | StateMechine.h:110-122 | out of a blend only a set current state advances; names, loop flags and the target stay and the output copies the current instance; the output copy is at StateMechine.h:173-176 |
| AnimationStateMachine.AdvanceRewindsOnlyLooping | StateMechine.h:112-121 | a finished clip is rewound to 0 only when it loops; a one-shot clip stays finished |
| AnimationStateMachine.UpdateOutput | StateMechine.h:148-195 | after `update` the output is the current instance out of a blend, and during one the per-component blend of current and next with weight blendTime / blendDuration in [0, 1) |
| AnimationStateMachine.BlendingNeverFinished | StateMechine.h:164-168 | while blending the machine never reports its animation finished |
| AnimationStateMachine.StateMachine.constructor | StateMechine.h:34-43 | no asset, nothing playing, no blend, a 0.2 s blend length and both loop flags set |
| AnimationStateMachine.StateMachine.Init | StateMechine.h:46-55 | the machine and its three instances are bound to the asset |
| AnimationStateMachine.StateMachine.ChangeState | StateMechine.h:61-103 | the new state is the one `AfterChange` describes, branch by branch |
| AnimationStateMachine.StateMachine.CommitBlend | StateMechine.h:77-82 | the target's instance, name and loop flag become current |
| AnimationStateMachine.StateMachine.RetargetNext | StateMechine.h:84-86 | the target name and loop flag are recorded and the target clock is rewound |
| AnimationStateMachine.StateMachine.EnterFirstState | StateMechine.h:88-96 | the first clip plays in the current instance and is copied to target and output |
| AnimationStateMachine.StateMachine.PlayFirstState | StateMechine.h:90-92 | the current instance switches to the clip at time 0 |
| AnimationStateMachine.StateMachine.BeginBlend | StateMechine.h:97-102 | a blend of the given length starts at time 0 |
| AnimationStateMachine.StateMachine.Update | StateMechine.h:105-149 | the new state is the one `AfterUpdate` describes |
| AnimationStateMachine.StateMachine.AdvanceCurrentInstance | StateMechine.h:110-122 | the current instance advances and rewinds only when its clip loops |
| AnimationStateMachine.StateMachine.AdvanceBlend | StateMechine.h:125-146 | the target advances and the blend clock ticks |
| AnimationStateMachine.StateMachine.AdvanceNextInstance | StateMechine.h:127-135 | the target instance advances and rewinds only when its clip loops |
| AnimationStateMachine.StateMachine.TickBlend | StateMechine.h:137-145 | the blend clock advances; at the blend length the target takes over |
| AnimationStateMachine.StateMachine.GetState | StateMechine.h:158-161 | the target name while blending, the current name otherwise |
| AnimationStateMachine.StateMachine.IsAnimationFinished | StateMechine.h:164-168 | false while blending, otherwise whether the current clip is finished |
| AnimationStateMachine.StateMachine.CalculateMatrices | StateMechine.h:171-195 | the output copies the current instance, or its palette becomes the blend of the two palettes |
| AnimationStateMachine.BlendInto | StateMechine.h:183-193 | the nested loop writes every component of all 256 entries with its blend |
| Terrain.InitObstacle | GameObject.h:483-502 | `Obstacle::init` places the obstacle, clears its hit flag, sets radius 0.8 and keeps its machine's invariant |
| Terrain.InitObstacleGrazes | GameObject.h:483-502 | a new obstacle with an asset that has "eating" plays it in a loop with no blend; without that clip the machine stays bound but idle |
| Terrain.AnimateObstacle | GameObject.h:504-509 | `Obstacle::update` moves only the animation: position, hit flag and radius are kept |
| Terrain.HitsCounted | GameObject.h:588-606 | a collision pass reports exactly the obstacles it newly flags: the hit count grows by the number reported and no flag is cleared |
| Terrain.HitsCountedUpTo | GameObject.h:588-606 | over every prefix, the pass flags exactly the obstacles it reports |
| Terrain.NoneTouchingUpTo | GameObject.h:593 | after a pass, no obstacle is left that the same pass would report again |
| Terrain.StrikeOnce | GameObject.h:593-603 | each obstacle triggers at most once: a second pass at the same place reports nothing and changes nothing |
| Terrain.AnimationKeepsCollisions | GameObject.h:762-765 | an `update` does not change which obstacles a collision pass reports, nor the hit count; the collision pass is at GameObject.h:588-606 |
| Terrain.AnimateKeepsContact | GameObject.h:504-509 | animating one obstacle keeps its hit flag and whether the player touches it; the contact test is at GameObject.h:594-598 |
| Terrain.Capacity | GameObject.h:669-671 | a new buffer holds at least the count and at least 64: max(64, floor(1.5 n)) |
| Terrain.ProvisionPolicy | GameObject.h:650-707 | the slot then holds n instances, which fit whenever there are any; a buffer is created only when there is none or it is too small, with room for max(64, floor(1.5 n)); otherwise buffer and capacity stay |
| Terrain.NoFlushWhenRoomy | GameObject.h:658-666 | a tile whose buffers all exist and are large enough never flushes the queue |
| Terrain.KindsPartition | GameObject.h:622-633 | each tuft lands in exactly one of the five kinds |
| Terrain.GrassTotal | GameObject.h:636-647 | the kinds together hold every tuft placed, and one pass places 31·13 + 6·13 = 481 |
| Terrain.Placed | GameObject.h:712-730 | every obstacle placed keeps its machine's invariant |
| Terrain.ObstacleLane | GameObject.h:712-730 | no obstacle without a model or for type 0, otherwise exactly one, not hit, radius 0.8, x offset +5.0 for type 1 and -5.3 for any other type, within 30% of the tile length of the centre along z |
| Terrain.Decorations | GameObject.h:733-759 | one decoration per draw, none for a count below one |
| Terrain.DecorationsOffRoad | GameObject.h:740-755 | each decoration lies 18 to 35 units off the centre line on the side its draw picks, within half a tile length along it, with a scale in [0.007, 0.017] |
| Terrain.TerrainTile.constructor | GameObject.h:556-566 | at the origin, 20 long, no obstacles or decorations, every slot without buffer, count or capacity |
| Terrain.TerrainTile.CleanupBuffers | GameObject.h:573-585 | every buffer released and every count and capacity back to 0; nothing else changes |
| Terrain.TerrainTile.CheckCollisions | GameObject.h:588-606 | the obstacles become the flagged list and the result is the number newly flagged; nothing else changes |
| Terrain.TerrainTile.GenerateGrass | GameObject.h:609-709 | each slot is provisioned for its kind's count; the result counts the queue flushes; `buffersCreated` is set |
| Terrain.TerrainTile.ProvisionSlots | GameObject.h:650-707 | the per-kind loop provisions each slot and counts one flush per released buffer |
| Terrain.TerrainTile.GenerateObstacles | GameObject.h:712-730 | the old obstacles are dropped and the lane rule places at most one |
| Terrain.TerrainTile.GenerateDecorations | GameObject.h:733-759 | the old decorations are dropped and `count` new ones are placed, draw by draw |
| Terrain.TerrainTile.Update | GameObject.h:762-765 | every obstacle advances its animation by dt, and nothing else changes |
| Terrain.TerrainTile.SetPosition | GameObject.h:767 | only the position changes |
| LevelConfig.SkipSpaceDrops | GameObject.h:897-900 | extraction first drops exactly the leading whitespace and keeps the rest of the line |
| LevelConfig.TakeWord | GameObject.h:898-900 | the word read and what follows it make up the input; the word has no whitespace and stops at whitespace or the end |
| LevelConfig.ReadWord | GameObject.h:898-900 | the word and the rest together are the line with its leading whitespace dropped |
| LevelConfig.EmptyWordOnlyOnBlankLine | GameObject.h:898-900 | the word read is empty exactly when nothing but whitespace is left |
| LevelConfig.LeadingDigits | GameObject.h:899-900 | the longest run of digits at the front of the text |
| LevelConfig.Saturate | GameObject.h:899-900 | a value outside `int` becomes the nearest bound; one inside is kept |
| LevelConfig.ReadInt | GameObject.h:899-900 | the count read always fits an `int` |
| LevelConfig.ObstacleType | GameObject.h:903-905 | 1 exactly for `LEFT`, 2 exactly for `RIGHT`, 0 for any other word |
| LevelConfig.ParseLine | GameObject.h:897-907 | a line yields a type in 0..2 and a count that fits an `int` |
| LevelConfig.ParseConfigs | GameObject.h:892-909 | at most one configuration per line, each with a type in 0..2 |
| LevelConfig.OnlySkippedYieldsNothing | GameObject.h:896 | a file of nothing but comments and empty lines yields no configuration |
| LevelConfig.ParseAppend | GameObject.h:894-909 | parsing is line by line: two files read back to back yield the configurations of each in turn |
| LevelConfig.DigitsValue | GameObject.h:899-900 | reading the decimal digits of n gives back n |
| LevelConfig.WholeWordTaken | GameObject.h:898-900 | a word followed by whitespace or the end is read whole |
| LevelConfig.NumberRoundTrip | GameObject.h:899-907 | an `int` count written after a blank reads back as itself |
| LevelConfig.NegativeRead | GameObject.h:899-900 | a minus sign and digits read back as the negated number, saturated |
| LevelConfig.NaturalRead | GameObject.h:899-900 | digits alone read back as their number, saturated |
| LevelConfig.WordRoundTrip | GameObject.h:898-905 | the obstacle word of a written line is read back as that word |
| LevelConfig.LineRoundTrip | GameObject.h:896-907 | a written configuration with type 0..2 and an `int` count is not skipped and reads back as itself |
| LevelConfig.FileRoundTrip | GameObject.h:892-909 | a level file written from a list of configurations reads back as that list |
| LevelConfig.Fallback | GameObject.h:917-924 | without a level file: no obstacle exactly on an odd first draw, no decorations exactly when `rand() % 100` is at most 30, otherwise one or two |
| LevelConfig.Deal | GameObject.h:926-928 | k calls return k configurations and leave a valid index |
| LevelConfig.DealCycles | GameObject.h:926-928 | the j-th call returns the configuration j places after the start, wrapping round, and the index moves on by the number of calls modulo the list length |
| LevelConfig.FullCycle | GameObject.h:926-928 | one call per configuration returns each once, in cyclic order, and brings the index back to where it started |
| TerrainStreaming.InitialLayoutSpaced | GameObject.h:948-958 | `init` lays the tiles in a row, one tile length apart along -z, the first two tile lengths behind the player's start and the third at it |
| TerrainStreaming.RecycleShiftsRoad | GameObject.h:1000-1011 | recycling keeps the row and its tile count and shifts every slot by one tile length along -z |
| TerrainStreaming.DealStep | GameObject.h:926-928 | one more `getNextConfig` appends the configuration at the index and moves the index on by one, wrapping round |
| TerrainStreaming.TotalTouchingStep | GameObject.h:980-985 | the road's report over the first i + 1 tiles adds tile i's report to that of the first i |
| TerrainStreaming.RoadStrikeOnce | GameObject.h:978-986 | a second pass over the whole road at the same place reports nothing |
| TerrainStreaming.TotalBounded | GameObject.h:978-986 | the road never reports more collisions than it holds obstacles |
| TerrainStreaming.AnimatedAll | GameObject.h:991-994 | animating every tile keeps the tile count and every obstacle's machine invariant |
| TerrainStreaming.RoadAnimationKeepsCollisions | GameObject.h:991-994 | animating the road does not change what the player would run into; the collision pass is at GameObject.h:978-986 |
| TerrainStreaming.TerrainManager.Untouched | GameObject.h:837-856 | a step that changes neither the manager nor any tile leaves the road as it was |
| TerrainStreaming.TerrainManager.constructor | GameObject.h:859-870 | ten tiles of 35 to come, no tiles yet, no obstacle model, no configurations, index 0 |
| TerrainStreaming.TerrainManager.LoadLevelConfig | GameObject.h:883-912 | a file that cannot be opened changes nothing; otherwise the configurations are those of its lines and the index is 0 |
| TerrainStreaming.TerrainManager.GetNextConfig | GameObject.h:915-929 | with configurations, the one at the index, and the index moves on cyclically; without, the random fallback and the index stays |
| TerrainStreaming.TerrainManager.Furnish | GameObject.h:964-970 | the tile gets the obstacles and decorations its configuration describes, and nothing else changes |
| TerrainStreaming.TerrainManager.NewTile | GameObject.h:954-961 | a fresh tile of the manager's tile length, at its place in the row, with grass and nothing on it |
| TerrainStreaming.TerrainManager.StrikeTile | GameObject.h:981-984 | one turn of the collision loop: tile i's pass and its report |
| TerrainStreaming.TerrainManager.StruckLists | GameObject.h:978-986 | once every tile has had its pass, the road is the old one struck |
| TerrainStreaming.TerrainManager.CheckCollisions | GameObject.h:978-986 | every tile's obstacles are struck and the result is the sum of the tiles' reports; layout and decorations stay |
| TerrainStreaming.TerrainManager.AnimateTile | GameObject.h:991-994 | one turn of the animation loop: tile i's obstacles step on, the others are untouched |
| TerrainStreaming.TerrainManager.AnimatedLists | GameObject.h:991-994 | once every tile has been animated, the road is the old one animated |
| TerrainStreaming.TerrainManager.UpdateTiles | GameObject.h:991-994 | every tile's obstacles step on by dt; layout and decorations stay |
| TerrainStreaming.TerrainManager.Refit | GameObject.h:1010-1023 | the recycled tile is put at its new place and furnished with the next configuration, and the index moves on as `getNextConfig` moves it |
| TerrainStreaming.TerrainManager.Recycle | GameObject.h:1006-1025 | the first tile moves to the end, one tile length past the last; the other tiles keep their obstacles and decorations |
| TerrainStreaming.TerrainManager.Update | GameObject.h:988-1029 | the road is animated; when the player is more than 1.5 tile lengths past the first tile, that tile is recycled to the end of the road, furnished from the configuration at the old index (or the random fallback when no level file was loaded), and the index steps on cyclically; otherwise the tiles and the index stay as they were |
| TerrainStreaming.TerrainManager.DealNext | GameObject.h:964 | `getNextConfig` as the i-th call of a deal: the configuration it returns is the next one dealt |
| TerrainStreaming.TerrainManager.AddTile | GameObject.h:951-973 | one turn of the `init` loop: a fresh tile at its place in the row, furnished with the next configuration dealt, is appended |
| TerrainStreaming.TerrainManager.LayRow | GameObject.h:944-973 | `numTiles` fresh tiles in the initial row, with the index moved on by `numTiles` calls |
| TerrainStreaming.TerrainManager.Init | GameObject.h:932-976 | the model is kept, the level file is read and the initial row of `numTiles` tiles is laid |
| Gameplay.Play | GameObject.h:411-414 | `playAnimation` keeps the character's position and speed, and a clip its asset has becomes the reported state |
| Gameplay.ChangeStateReportsTargetWhenKnown | StateMechine.h:61-103 | any request keeps the machine invariant and its asset, and a known clip becomes the reported state |
| Gameplay.Collide | Game.cpp:234-258 | the collision part of a PLAYING frame keeps both characters bound to their assets |
| Gameplay.Resume | Game.cpp:260-263 | the resume check touches only the player, never the state, the count or the farmer |
| Gameplay.Chase | Game.cpp:269-291 | a GAMEOVER_WALK frame touches only the farmer and the state; the player and the count stay |
| Gameplay.Step | Game.cpp:231-292 | a frame keeps the invariant: PLAYING exactly while fewer than two collisions have been counted |
| Gameplay.CountsNewHits | Game.cpp:234-238 | while PLAYING the count grows by exactly the hits reported; otherwise it stays |
| Gameplay.SecondHitEndsRun | Game.cpp:241-252 | reaching two collisions moves to GAMEOVER_WALK, stops both characters, asks the farmer for a looping "walk", and gives the player a non-looping "death" when the asset has it |
| Gameplay.FirstHitReacts | Game.cpp:253-263 | a hit below the limit asks for a non-looping "hit reaction" with a 0.1 blend; starting that blend keeps the same frame from resuming the run |
| Gameplay.HitReactionResumesRunning | Game.cpp:260-263 | a finished "hit reaction" asks for a looping "run forward" with a 0.2 blend |
| Gameplay.WalkThenGrab | Game.cpp:269-291 | in GAMEOVER_WALK the farmer grabs ("grab low", not looping) once within 0.1 of the spot 5 behind the player, and otherwise keeps walking; the player never changes |
| Gameplay.NoWayBack | Game.cpp:231-292 | nothing leads back to PLAYING, GAMEOVER_GRAB changes nothing, and the count never decreases |
| Gameplay.Character.constructor | GameObject.h:377-386 | a character with its state machine, at its start, with speed 1 |
| Gameplay.Character.PlayAnimation | GameObject.h:411-414 | the request is forwarded to the state machine as `changeState` |
| Gameplay.Character.SetSpeed | GameObject.h:449-452 | only the speed changes |
| Gameplay.Game.constructor | Game.cpp:190-197 | the run starts PLAYING with no collisions |
| Gameplay.Game.EndRun | Game.cpp:243-251 | GAMEOVER_WALK; the player stops and is asked for "death", the farmer stops and is asked for "walk" |
| Gameplay.Game.CountHits | Game.cpp:234-258 | the collision part of a PLAYING frame, as `Collide` describes |
| Gameplay.Game.ResumeIfDone | Game.cpp:260-263 | the hit-reaction check, as `Resume` describes |
| Gameplay.Game.Grab | Game.cpp:279-284 | GAMEOVER_GRAB, and the farmer is asked for a non-looping "grab low" |
| Gameplay.Game.ChaseStep | Game.cpp:269-291 | a GAMEOVER_WALK frame, as `Chase` describes |
| Gameplay.Game.React | Game.cpp:236-263 | the count and the hit reaction of a PLAYING frame |
| Gameplay.Game.PlayingFrame | Game.cpp:231-263 | the road is struck where the player stands, with radius 5.5, and the hits it reports are those counted |
| Gameplay.Game.Frame | Game.cpp:231-292 | the gameplay step of one frame is `Step` applied to the hits the road reports; only PLAYING strikes the road, and the road's layout never changes |
| ShaderConstants.CbSize | Shaders.h:33 | the slot size is a multiple of 256 that fits an `unsigned int` (the sum wraps modulo 2^32 as written) |
| ShaderConstants.CbSizeRoundsUp | Shaders.h:33 | without wrap-around the slot size is the smallest multiple of 256 that is at least `sizeInBytes` |
| ShaderConstants.NextSlot | Shaders.h:67-74 | `next` moves one slot on or back to slot 0, and stays inside the ring |
| ShaderConstants.Wrap | Shaders.h:67-74 | a position reduced into the ring lies inside it |
| ShaderConstants.NextSlotWraps | Shaders.h:67-74 | one `next` from a reduced position is the reduced next position |
| ShaderConstants.RingCycles | Shaders.h:67-74 | k calls of `next` land on index + k modulo the ring size, so every slot is used before one is reused |
| ShaderConstants.WrittenExactly | Shaders.h:61 | a copy changes exactly the bytes it covers, to the bytes copied |
| ShaderConstants.WrittenSlice | Shaders.h:61 | the copied range reads back as the data |
| ShaderConstants.WrittenElsewhere | Shaders.h:61 | a range the copy does not reach reads as before |
| ShaderConstants.SlotsDisjoint | Shaders.h:60 | two different slots of the ring do not overlap |
| ShaderConstants.ConstantBuffer.Init | Shaders.h:31-36 | the slot size is the rounded size, there are `maxDrawCalls` slots, the ring starts at slot 0 and the allocation holds every slot |
| ShaderConstants.ConstantBuffer.Lookup | Shaders.h:59 | the variable written fits in a slot, and an unknown name writes nothing |
| ShaderConstants.ConstantBuffer.SlotStart | Shaders.h:60 | the current slot lies inside the allocation |
| ShaderConstants.ConstantBuffer.Update | Shaders.h:57-62 | only the variable's bytes in the current slot are overwritten, with the data; an unknown name is entered as offset 0 and size 0 and nothing is written; the ring does not move |
| ShaderConstants.ConstantBuffer.GetGPUAddress | Shaders.h:63-66 | the base address plus the current slot's offset, a whole slot inside the allocation |
| ShaderConstants.ConstantBuffer.Next | Shaders.h:67-74 | the ring moves one slot on, wrapping to 0 at the end |
| ShaderConstants.FirstNamed | Shaders.h:186-193 | the position of the first buffer with the name, or the list length when none has it |
| ShaderConstants.UpdateConstant | Shaders.h:184-194 | only the first buffer with the name is updated; with none nothing changes |
| ShaderConstants.FirstIsFirst | Shaders.h:186-193 | a match with no match before it is the one the search finds |
| ShaderConstants.NoneNamed | Shaders.h:186-193 | without a match the search runs off the end |
| ShaderConstants.Shader.constructor | Shaders.h:82-90 | a shader holding its two sources, with no buffers and no texture bind points yet |
| ShaderConstants.Shader.Advance | Shaders.h:205-214 | each buffer of the list is bound at its current slot and then moved on once, in order |
| ShaderConstants.Shader.Apply | Shaders.h:203-215 | vertex-shader buffers are bound to root parameter 0 and pixel-shader buffers to 1, each at its current slot, and every ring moves on exactly once |
| ShaderConstants.StripBom | Shaders.h:243-250 | exactly the first three bytes are dropped when they are EF BB BF; otherwise the content is returned as it is |
| ShaderConstants.StripBomRoundTrip | Shaders.h:243-250 | a file saved with a byte-order mark reads back as the text without it |
| ShaderConstants.StripBomOnce | Shaders.h:243-250 | only one mark is dropped: a second one stays |
| ShaderConstants.Shaders.constructor | Shaders.h:234 | no shader is loaded yet |
| ShaderConstants.Shaders.Load | Shaders.h:254-265 | a name already present leaves the map unchanged; otherwise a new shader with both sources, marks dropped, is added under that name |
| ShaderConstants.Shaders.Find | Shaders.h:274-277 | the shader under the name; an unknown name gets an empty shader entered, as `operator[]` does |
| Textures.RowPitch | Texture.h:59 | the pitch holds a row of width·4 bytes, is less than 256 bytes longer, and is a multiple of 256 |
| Textures.RowPitchSmallest | Texture.h:59 | no multiple of 256 that holds a row is smaller than the pitch |
| Textures.RowsKept | Texture.h:63-66 | writing row y leaves the rows already copied as they were |
| Textures.CopyRow | Texture.h:65 | one row's `memcpy` puts image row y at y pitches into the upload and keeps the rows before it |
| Textures.Stage | Texture.h:59-66 | the upload is RowPitch·height bytes and every row y, at y·RowPitch, holds image row y |
| Textures.Texture.constructor | Texture.h:9-16 | a new texture without a resource, whose view sits in the slot it was given; the slot is the one `createSRV` uses (Texture.h:74-90) |
| Textures.Texture.Load | Texture.h:18-72 | a file that does not decode leaves the texture without a resource; otherwise it takes the image's size and its rows are uploaded at the padded pitch |
| Textures.TextureManager.Init | Texture.h:115-126 | an empty cache, a heap of `maxTextures` slots, and slot 0 next |
| Textures.TextureManager.Load | Texture.h:128-145 | a cached file returns its texture and changes nothing; a new file gets a fresh texture in the next slot, the counter goes up by one even when decoding failed, and its view lies in the heap exactly when that slot is below the heap size |
| Textures.TextureManager.Insert | Texture.h:141-143 | the new texture enters the cache and the counter moves on by one |
| Textures.TextureManager.Get | Texture.h:147-155 | the cached texture, or nothing; the cache is not changed |
| Textures.TextureManager.Cleanup | Texture.h:163-175 | the cache is left empty |
| Materials.Chosen | Material.h:29-33 | the primary property's value, or the fallback's when that is empty; empty exactly when both are |
| Materials.TexturePath | Material.h:38-53 | without a folder, with a leading slash or backslash, or under `Models/` or `Models\`, the value is the path; otherwise folder + "/" + value |
| Materials.TexturePathEndsWithValue | Material.h:38-53 | the path always ends with the value, and lies in the model's folder exactly when the value is not taken as it is |
| Materials.LoadedKept | Material.h:58-139 | later loads through the cache do not disturb a texture found earlier |
| Materials.LoadWanted | Material.h:58 | an empty property loads nothing; otherwise the cache's texture for the file, which has a resource exactly when a new file decoded; the cache load is at Texture.h:128-145 |
| Materials.Material.constructor | Material.h:15-21 | no textures and not textured |
| Materials.Material.LoadFromGEMMaterial | Material.h:23-150 | each texture is loaded from the resolved path of its chosen property, or left alone when that property is empty; only a diffuse texture with a resource makes the material textured |
| Materials.Material.LoadFiles | Material.h:58-139 | the three loads once the files are resolved; `hasTexture` changes only through the diffuse load |
| Materials.Material.LoadPair | Material.h:102-139 | the normal and specular loads, which never touch `hasTexture` |
| Materials.Material.Assign | Material.h:58-139 | each texture found replaces the material's; a diffuse texture with a resource makes it textured, and nothing clears the flag |
| Materials.MaterialManager.constructor | Material.h:166-169 | no materials, and the texture cache it loads through |
| Materials.MaterialManager.CreateMaterial | Material.h:171-177 | exactly one fresh material is appended and returned; it is textured exactly when its diffuse texture has a resource |
| Materials.MaterialManager.Cleanup | Material.h:179-186 | no materials are left |
| Scenery.CellAppended | Environment.h:184-199 | pushing six in-range indices after 6q adds the q-th cell, keeps every earlier cell in place and keeps every index below the vertex count |
| Scenery.SkyRow | Environment.h:160-180 | one latitude row adds 31 vertices: each keeps its grid place and gets u = 1 - lon/30, v = lat/30, and the rows already built are untouched |
| Scenery.SkyboxVertices | Environment.h:154-181 | the vertex loops build (30+1)·(30+1) = 961 vertices, vertex (lat, lon) at lat·31 + lon with its texture coordinates |
| Scenery.SkyBand | Environment.h:186-198 | one latitude band adds 30 cells of six indices, all below 961, and leaves the earlier bands' cells as they were |
| Scenery.SkyboxIndices | Environment.h:184-199 | the index loops build 30·30·6 = 5400 indices, each below 961, the cell (lat, lon) being the two triangles over its four corners |
| Scenery.SkyCellCorners | Environment.h:188-197 | the triangles of skybox cell (lat, lon) name the vertices at (lat, lon), (lat, lon+1), (lat+1, lon) and (lat+1, lon+1) |
| Scenery.Skybox.constructor | Environment.h:125-129 | a new skybox has no material and is not initialised |
| Scenery.Skybox.Init | Environment.h:144-235 | after init the mesh is the 961-vertex, 5400-index sphere, the shader is SkyboxEmissive, and the new material's diffuse texture is the cache's entry for the path, textured exactly when that texture decoded |
| Scenery.Skybox.LoadMaterial | Environment.h:208-231 | the material step: a fresh material with the cache's texture for the path, hasTexture exactly when its resource exists, and the shader name set |
| Scenery.Skybox.BuildMesh | Environment.h:154-199 | the vertex and index loops leave a well-formed sphere mesh: every index below the vertex count and every cell on its grid corners |
| Scenery.DiffuseOnly | Environment.h:208-220 | a fresh material whose diffuse texture is the cache's entry for the path and which is textured exactly when that entry holds a resource |
| Scenery.GrassIndices | Environment.h:340-349 | the grass index loop builds 24 indices, each below 16, quad i being the two triangles over corners 4i .. 4i+3 |
| Scenery.GrassQuadsFaceOneWay | Environment.h:313-349 | every index of grass quad i names a vertex with that quad's normal, and each quad's twin (the back face) has the opposite normal |
| Scenery.GrassPatch.constructor | Environment.h:287-290 | a new patch has its wind clock at 0 and no materials |
| Scenery.GrassPatch.Init | Environment.h:305-363 | init builds the 16-vertex crossed-quad table and 24 indices below 16, sets the shader to Grass and leaves materials and clock alone |
| Scenery.GrassPatch.AddTexture | Environment.h:365-372 | addTexture appends exactly one fresh material, holding the cache's texture for the path and marked textured, and keeps the earlier materials |
| Scenery.GrassPatch.DrawInstanced | Environment.h:374-404 | with no instances the clock is unchanged and nothing is bound; otherwise the clock advances by dt, and a material is bound iff 0 ≤ type < materials.size(), namely materials[type] |
| Scenery.GrassMaterial | Environment.h:367-369 | the material addTexture makes holds the cache's texture for the path and is marked textured, since a cache load never returns null |
| Scenery.DistantVertices | Environment.h:477-500 | the vertex loop builds 2·(72+1) = 146 vertices, column i's top at 2i and bottom at 2i+1, both at u = (i/72)·repeatCount |
| Scenery.DistantIndices | Environment.h:503-513 | the index loop builds 6·72 = 432 indices, each below 146, quad i over corners 2i .. 2i+3 |
| Scenery.DistantQuadSpansColumns | Environment.h:503-513 | every index of cylinder quad i names a vertex of column i or i+1, and each of its triangles mixes top and bottom vertices |
| Scenery.DistantLayer.constructor | Environment.h:435-439 | a new layer has no material and is not initialised |
| Scenery.DistantLayer.Init | Environment.h:455-548 | after init the mesh is the 146-vertex, 432-index cylinder, the shader is DistantLayerEmissive, and the material holds the cache's texture for the path, textured exactly when that texture decoded |
| Scenery.DistantLayer.LoadMaterial | Environment.h:521-547 | the material step: a fresh material with the cache's texture, hasTexture exactly when its resource exists, and the shader name set |
| Scenery.DistantLayer.BuildMesh | Environment.h:477-513 | the vertex and index loops leave a well-formed cylinder mesh: every index below 146 and every quad between neighbouring columns |

## Left out

- IEEE single-precision floating point. Floats are modelled as reals, so rounding, infinities and NaN are absent. Division by zero is given the value 0 (`Maths.Div`).
- Trigonometric and square-root functions are uninterpreted. Nothing is proved about matrix values that depends on them, such as rotation normalisation or slerp angles.
- The animation asset is a read-only value that is assumed well formed. Every bone's parent index must be -1 or the index of some bone, which still allows cycles, and every clip must cover every bone. The proofs about the bone loop of `update` also assume that parents come before their children (`ParentsFirst`). `findWorldMatrix` instead assumes that the parent chain from the requested bone reaches a root (`ReachesRoot`). The loader (GEMLoader) is not part of this model.
- `std::map::operator[]` inserting a default entry for an unknown clip or variable is modelled only where the source relies on it: `ConstantBuffer.update` with an unknown variable. For animation clips, callers must name an existing clip.
- AnimationStateMachine.StateMachine.ChangeState: with no animation asset bound, only a request for the current, non-blending state is allowed (`CanChange`). The source would otherwise call into an instance that has no asset.
- AnimationStateMachine.StateMachine.Update: `dt` is assumed non-negative, because frame times never go backwards.
- Gameplay.Game.Frame: `isAnimationFinished` is asked only when `CanAsk` holds, which means an asset is bound and the current clip exists. The source asks it unconditionally.
- Gameplay: animation instances are held as values inside the state machine. Aliasing between instances is not modelled.
- Rendering is left out: `draw`, `drawLit`, descriptor and pipeline state objects, command lists, fences and queue flushes. A flush is only counted (`Terrain.Flushes`).
- Audio, the Win32 window, input, the camera and `PlayerController` are left out. The player's lateral movement is therefore not modelled.
- Each call to `rand()` is an explicit parameter: a roll, a `Unit` fraction, or a `nat -> ...` supply. No generator is modelled.
- The grass instance world matrices, and the `memcpy` of them into the GPU buffer, are not modelled. Only the per-type counts and capacities are.
- Every `CreateCommittedResource`, `Map` and upload is assumed to succeed.
- Terrain.Capacity: ⌊1.5·n⌋ is computed exactly. The source's float product and truncation agree for every count the game produces, which is at most 481.
- LevelConfig.ParseLine: when nothing but whitespace follows the obstacle word, the model gives a count of 0. This covers a line with no count, such as "LEFT" or "NONE ", and a line of whitespace only. In the source, the extraction of the count then fails before it assigns anything, so the uninitialised `decCount` keeps an indeterminate value.
- LevelConfig.ReadInt: reads an empty or all-whitespace remainder as 0, where the source leaves the count unassigned. When other text follows, the source's count is 0, as in the model.
- `TerrainManager::setNumTiles` and `setTileLength` are not modelled. The tile length is the constant 35.0 and the tile count is a field that the constructor sets.
- The level file is an `Option<seq<string>>` of its lines. `None` means the file could not be opened. File I/O is left out.
- TerrainStreaming.TerrainManager.Init: does not state which configuration furnished each tile. That fact is stated per tile by `Furnish` and `DealStep`.
- `MoveAnimatedModel::init` and `MoveAnimatedModel::update` are not modelled: mesh loading, and the world-matrix update from position and rotation. Gameplay.Character keeps only the state machine, position and speed.
- Gameplay.Game.Frame: the terrain manager is a parameter of the frame rather than a field of the game.
- Shader compilation and reflection are left out. A constant buffer's variables and size are given to `ConstantBuffer.Init` rather than derived from shader source.
- ShaderConstants.ConstantBuffer.Init: assumes, through its precondition, that every variable ends within one slot and that the slot size times `maxDrawCalls` stays below 2^32. The source does not guarantee the first. `initConstantBuffers` (Shaders.h:104-116) sizes the buffer by the sum of its variables' sizes, but variables sit at their reflected start offsets, which include HLSL 16-byte packing. A large enough buffer can therefore place a variable past the end of the slot. The model does not cover that overrun.
- ShaderConstants.ConstantBuffer.Update: requires `numInstances > 0`, since a buffer of zero slots has no byte to write.
- `Shader::bindHeap`, GPU descriptor handles, `Mesh::init` and PSO creation are left out.
- The constant updates and `apply` inside the draw calls are left out, and so are the `DirectionalLight` computations.
- Scenery: vertex positions, normals on the sphere and cylinder, and tangents are computed with `sinf`/`cosf` and are not modelled. A vertex is modelled by its grid place and texture coordinates.
- Textures.Stage: requires the row pitch and the image size to fit in `int` and `unsigned int`, so that no signed overflow occurs.
- `stbi_load` is a parameter: the decoded image, or `None` when decoding fails.
- GEMLoader's material property lookup is a map.
- A texture's SRV slot is fixed when the texture is created (`srvIndex`). The heap is not bounds-checked against `maxTextures`, and `TextureManager.InHeap` states when the slot lies inside it.

