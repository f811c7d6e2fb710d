/**
 * The gameplay step of the frame loop in `WinMain`: while PLAYING the
 * collisions the road reports are counted, the second one ends the run (the
 * player dies, the farmer walks over), and a finished hit reaction turns back
 * into running; in GAMEOVER_WALK the farmer closes in until near enough to
 * grab; GAMEOVER_GRAB is final.
 */
module Gameplay {
  import opened Maths
  import opened Options
  import opened SkeletalAnimation
  import opened AnimationStateMachine
  import opened TerrainStreaming

  datatype GameState = Playing | GameOverWalk | GameOverGrab

  /** The radius the player is given for collisions. */
  const PlayerRadius: real := 5.5
  /** The collision that ends the run. */
  const CollisionLimit: int := 2
  /** How far behind the player the farmer stops, along +z. */
  const FarmerStandOff: real := 5.0
  /** The farmer grabs once closer than this to that spot. */
  const GrabDistance: real := 0.1
  const WalkSpeed: real := 5.0

  // ---------------------------------------------------------------------------
  // The step as a value

  /** A character as the step sees it: its state machine, where it is, and how fast it runs. */
  datatype Runner = Runner(machine: MachineState, position: Vec3, speed: real)

  /** What the step reads and writes. */
  datatype World = World(state: GameState, collisions: int, player: Runner, farmer: Runner)

  /** A character that has an asset bound to its state machine. */
  predicate RunnerOk(r: Runner)
  {
    MachineOk(r.machine) && r.machine.animationData.Some?
  }

  /** PLAYING exactly while fewer than two collisions have been counted. */
  predicate WorldOk(w: World)
  {
    RunnerOk(w.player) && RunnerOk(w.farmer) && w.collisions >= 0 &&
    (w.state == Playing <==> w.collisions < CollisionLimit)
  }

  /** `playAnimation`: a `changeState` request. */
  function Play(r: Runner, name: string, blendTime: real, loop: bool): (p: Runner)
    requires RunnerOk(r)
    ensures RunnerOk(p) && p.position == r.position && p.speed == r.speed
    ensures name in r.machine.animationData.value.animations ==> Reported(p.machine) == name
  {
    ChangeStateReportsTargetWhenKnown(r.machine, name, blendTime, loop);
    r.(machine := AfterChange(r.machine, name, blendTime, loop))
  }

  lemma ChangeStateReportsTargetWhenKnown(s: MachineState, name: string, duration: real, loop: bool)
    requires MachineOk(s) && s.animationData.Some?
    ensures MachineOk(AfterChange(s, name, duration, loop))
    ensures AfterChange(s, name, duration, loop).animationData == s.animationData
    ensures name in s.animationData.value.animations ==> Reported(AfterChange(s, name, duration, loop)) == name
  {
    if name in s.animationData.value.animations {
      ChangeStateReportsTarget(s, name, duration, loop);
    }
  }

  /**
   * `isAnimationFinished` can be asked: while blending, or when the current
   * instance holds one of the asset's clips.
   */
  predicate Answerable(s: MachineState)
  {
    s.animationData.Some? && (s.isBlending || s.current.usingAnimation in s.animationData.value.animations)
  }

  /** The player is in "hit reaction" and that clip has run out. */
  predicate HitReactionDone(s: MachineState)
    requires MachineOk(s)
  {
    Reported(s) == "hit reaction" && Answerable(s) && MachineFinished(s)
  }

  /** The collision part of a PLAYING frame, given the hits the road reported. */
  function Collide(w: World, newHits: int): (r: World)
    requires WorldOk(w) && w.state == Playing
    ensures RunnerOk(r.player) && RunnerOk(r.farmer)
  {
    if newHits <= 0 then w
    else
      var total := w.collisions + newHits;
      if total >= CollisionLimit then
        w.(state := GameOverWalk, collisions := total,
           player := Play(w.player.(speed := 0.0), "death", 0.2, false),
           farmer := Play(w.farmer.(speed := 0.0), "walk", 0.2, true))
      else
        w.(collisions := total, player := Play(w.player, "hit reaction", 0.1, false))
  }

  /** The end of a PLAYING frame: a finished hit reaction goes back to running. */
  function Resume(w: World): (r: World)
    requires RunnerOk(w.player)
    ensures RunnerOk(r.player) && r.state == w.state && r.collisions == w.collisions && r.farmer == w.farmer
  {
    if HitReactionDone(w.player.machine) then w.(player := Play(w.player, "run forward", 0.2, true)) else w
  }

  /** Where the farmer heads: a little behind the player. */
  function Target(w: World): Vec3
  {
    Vec3(w.player.position.x, w.player.position.y, w.player.position.z + FarmerStandOff)
  }

  /** `(to - from).length()`: `sqrtf` of the squared length. */
  function Distance(from: Vec3, to: Vec3): real
  {
    var dx := to.x - from.x;
    var dy := to.y - from.y;
    var dz := to.z - from.z;
    Sqrt(dx * dx + dy * dy + dz * dz)
  }

  /** `from += (to - from).normalize() * speed * dt`. */
  function Toward(from: Vec3, to: Vec3, speed: real, dt: real): Vec3
  {
    var dx := to.x - from.x;
    var dy := to.y - from.y;
    var dz := to.z - from.z;
    var l := Div(1.0, Sqrt(dx * dx + dy * dy + dz * dz));
    Vec3(from.x + dx * l * speed * dt, from.y + dy * l * speed * dt, from.z + dz * l * speed * dt)
  }

  /** How far the farmer still has to go. */
  function Gap(w: World): real
  {
    Distance(w.farmer.position, Target(w))
  }

  /** A GAMEOVER_WALK frame: grab when near enough, else walk at 5 units a second towards the spot. */
  function Chase(w: World, dt: real): (r: World)
    requires RunnerOk(w.farmer)
    ensures RunnerOk(r.farmer) && r.player == w.player && r.collisions == w.collisions
  {
    if Gap(w) < GrabDistance then
      w.(state := GameOverGrab, farmer := Play(w.farmer, "grab low", 0.2, false))
    else
      w.(farmer := w.farmer.(position := Toward(w.farmer.position, Target(w), WalkSpeed, dt)))
  }

  /** One frame of the gameplay step, `newHits` being what the road's collision pass reported. */
  function Step(w: World, newHits: int, dt: real): (r: World)
    requires WorldOk(w) && newHits >= 0
    ensures WorldOk(r)
  {
    match w.state
    case Playing => Resume(Collide(w, newHits))
    case GameOverWalk => Chase(w, dt)
    case GameOverGrab => w
  }

  // ---------------------------------------------------------------------------
  // What the step promises

  /** While PLAYING the count grows by exactly the hits reported; otherwise it stays. */
  lemma CountsNewHits(w: World, newHits: int, dt: real)
    requires WorldOk(w) && newHits >= 0
    ensures Step(w, newHits, dt).collisions == if w.state == Playing then w.collisions + newHits else w.collisions
  {
  }

  /**
   * The second collision ends the run: GAMEOVER_WALK, both characters stopped,
   * the farmer told to walk, and the player's request for "death" made.
   */
  lemma SecondHitEndsRun(w: World, newHits: int, dt: real)
    requires WorldOk(w) && w.state == Playing && newHits > 0 && w.collisions + newHits >= CollisionLimit
    ensures var r := Step(w, newHits, dt);
      r.state == GameOverWalk && r.player.speed == 0.0 && r.farmer.speed == 0.0 &&
      r.farmer.machine == AfterChange(w.farmer.machine, "walk", 0.2, true) &&
      r.player.position == w.player.position && r.farmer.position == w.farmer.position
    ensures var r := Step(w, newHits, dt);
      "death" in w.player.machine.animationData.value.animations ==>
        r.player.machine == AfterChange(w.player.machine, "death", 0.2, false) &&
        Reported(r.player.machine) == "death"
  {
  }

  /**
   * A hit that is not the last one plays a non-looping hit reaction with a
   * 0.1 blend; coming from another clip, that starts a blend, so the frame
   * does not also resume running.
   */
  lemma FirstHitReacts(w: World, newHits: int, dt: real)
    requires WorldOk(w) && w.state == Playing && newHits > 0 && w.collisions + newHits < CollisionLimit
    requires "hit reaction" in w.player.machine.animationData.value.animations
    requires Reported(w.player.machine) != "" && Reported(w.player.machine) != "hit reaction"
    ensures var r := Step(w, newHits, dt);
      r.state == Playing && r.collisions == w.collisions + newHits && r.farmer == w.farmer &&
      r.player == Play(w.player, "hit reaction", 0.1, false) && r.player.machine.isBlending &&
      Reported(r.player.machine) == "hit reaction"
  {
    var s := w.player.machine;
    if s.isBlending {
      ChangeDuringBlendCommits(s, "hit reaction", 0.1, false);
    } else {
      ChangeStartsBlend(s, "hit reaction", 0.1, false);
    }
    BlendingNeverFinished(AfterChange(s, "hit reaction", 0.1, false));
  }

  /** A frame with no new hits and a finished hit reaction asks for "run forward", looping. */
  lemma HitReactionResumesRunning(w: World, dt: real)
    requires WorldOk(w) && w.state == Playing && HitReactionDone(w.player.machine)
    ensures var r := Step(w, 0, dt);
      r.state == Playing && r.collisions == w.collisions && r.farmer == w.farmer &&
      r.player.machine == AfterChange(w.player.machine, "run forward", 0.2, true)
  {
  }

  /** In GAMEOVER_WALK only the farmer moves, until it is close enough to grab. */
  lemma WalkThenGrab(w: World, dt: real)
    requires WorldOk(w) && w.state == GameOverWalk
    ensures var r := Step(w, 0, dt);
      r.player == w.player && r.collisions == w.collisions &&
      (Gap(w) < GrabDistance ==>
        r.state == GameOverGrab && r.farmer == Play(w.farmer, "grab low", 0.2, false)) &&
      (Gap(w) >= GrabDistance ==>
        r.state == GameOverWalk && r.farmer.machine == w.farmer.machine && r.farmer.speed == w.farmer.speed)
  {
  }

  /** Nothing leads back to PLAYING, and GAMEOVER_GRAB is never left and changes nothing. */
  lemma NoWayBack(w: World, newHits: int, dt: real)
    requires WorldOk(w) && newHits >= 0
    ensures w.state != Playing ==> Step(w, newHits, dt).state != Playing
    ensures w.state == GameOverGrab ==> Step(w, newHits, dt) == w
    ensures Step(w, newHits, dt).collisions >= w.collisions
  {
  }

  // ---------------------------------------------------------------------------
  // The objects

  /** `MoveAnimatedModel`, reduced to what the step touches. */
  class Character {
    const machine: StateMachine
    var position: Vec3
    var speed: real

    ghost predicate Valid()
      reads this, machine
    {
      machine.Valid() && machine.animationData.Some?
    }

    ghost function View(): Runner
      reads this, machine
    {
      Runner(machine.Abstract(), position, speed)
    }

    constructor (m: StateMachine, pos: Vec3)
      ensures machine == m && position == pos && speed == 1.0
    {
      machine := m;
      position := pos;
      speed := 1.0;
    }

    /** `playAnimation`: forwards the request to the state machine. */
    method PlayAnimation(name: string, blendTime: real, loop: bool)
      requires Valid()
      modifies machine
      ensures Valid() && View() == Play(old(View()), name, blendTime, loop)
    {
      machine.ChangeState(name, blendTime, loop);
    }

    method SetSpeed(s: real)
      modifies this
      ensures speed == s && position == old(position)
    {
      speed := s;
    }
  }

  /** Whether `isAnimationFinished` can be asked of `m`. */
  predicate CanAsk(m: StateMachine)
    reads m
  {
    m.animationData.Some? && (m.isBlending || m.currentInstance.usingAnimation in m.animationData.value.animations)
  }

  /** The locals of `WinMain` the step updates, and the objects it drives. */
  class Game {
    var gameState: GameState
    var collisionCount: int
    const player: Character
    const farmer: Character

    ghost predicate Valid()
      reads this, player, farmer, player.machine, farmer.machine
    {
      player != farmer && player.machine != farmer.machine &&
      player.Valid() && farmer.Valid() && WorldOk(View())
    }

    ghost function View(): World
      reads this, player, farmer, player.machine, farmer.machine
    {
      World(gameState, collisionCount, player.View(), farmer.View())
    }

    /** The state before the first frame: PLAYING, no collisions. */
    constructor (p: Character, f: Character)
      requires p != f && p.machine != f.machine && p.Valid() && f.Valid()
      ensures Valid() && gameState == Playing && collisionCount == 0
      ensures player == p && farmer == f
    {
      gameState := Playing;
      collisionCount := 0;
      player := p;
      farmer := f;
    }

    /** The run ends: the player stops and dies, the farmer stops and walks. */
    method EndRun()
      requires player.Valid() && farmer.Valid() && player != farmer && player.machine != farmer.machine
      modifies this, player, farmer, player.machine, farmer.machine
      ensures player.Valid() && farmer.Valid()
      ensures View() == old(View()).(state := GameOverWalk,
                                    player := Play(old(player.View()).(speed := 0.0), "death", 0.2, false),
                                    farmer := Play(old(farmer.View()).(speed := 0.0), "walk", 0.2, true))
    {
      gameState := GameOverWalk;
      player.SetSpeed(0.0);
      player.PlayAnimation("death", 0.2, false);
      farmer.SetSpeed(0.0);
      farmer.PlayAnimation("walk", 0.2, true);
    }

    /** The collision part of a PLAYING frame. */
    method CountHits(newHits: int)
      requires Valid() && gameState == Playing && newHits >= 0
      modifies this, player, farmer, player.machine, farmer.machine
      ensures player.Valid() && farmer.Valid() && View() == Collide(old(View()), newHits)
    {
      if newHits > 0 {
        collisionCount := collisionCount + newHits;
        if collisionCount >= CollisionLimit {
          EndRun();
        } else {
          player.PlayAnimation("hit reaction", 0.1, false);
        }
      }
    }

    /** The hit-reaction check that ends a PLAYING frame. */
    method ResumeIfDone()
      requires player.Valid() && farmer.Valid() && player != farmer && player.machine != farmer.machine
      modifies player.machine
      ensures player.Valid() && View() == Resume(old(View()))
    {
      var state := player.machine.GetState();
      if state == "hit reaction" && CanAsk(player.machine) && player.machine.IsAnimationFinished() {
        player.PlayAnimation("run forward", 0.2, true);
      }
    }

    /** The farmer has arrived and grabs the player. */
    method Grab()
      requires player.Valid() && farmer.Valid() && player != farmer && player.machine != farmer.machine
      modifies this, farmer.machine
      ensures farmer.Valid()
      ensures View() == old(View()).(state := GameOverGrab, farmer := Play(old(farmer.View()), "grab low", 0.2, false))
    {
      gameState := GameOverGrab;
      farmer.PlayAnimation("grab low", 0.2, false);
    }

    /** A GAMEOVER_WALK frame. */
    method ChaseStep(dt: real)
      requires player.Valid() && farmer.Valid() && player != farmer && player.machine != farmer.machine
      requires gameState == GameOverWalk
      modifies this, farmer, farmer.machine
      ensures farmer.Valid() && View() == Chase(old(View()), dt)
    {
      var targetPos := Vec3(player.position.x, player.position.y, player.position.z + FarmerStandOff);
      var dist := Distance(farmer.position, targetPos);
      if dist < GrabDistance {
        Grab();
      } else {
        farmer.position := Toward(farmer.position, targetPos, WalkSpeed, dt);
      }
    }

    /** What a PLAYING frame does with the hits reported. */
    method React(newHits: int)
      requires Valid() && gameState == Playing && newHits >= 0
      modifies this, player, farmer, player.machine, farmer.machine
      ensures Valid() && View() == Resume(Collide(old(View()), newHits))
    {
      CountHits(newHits);
      ResumeIfDone();
    }

    /** A PLAYING frame: the road's collision pass where the player stands, the count, and the hit-reaction check. */
    method PlayingFrame(terrain: TerrainManager) returns (newHits: int)
      requires Valid() && gameState == Playing && terrain.Valid()
      modifies this, player, farmer, player.machine, farmer.machine, terrain.tiles
      ensures newHits >= 0 && Valid() && terrain.Valid() && View() == Resume(Collide(old(View()), newHits))
      ensures newHits == TotalTouching(old(terrain.ObstacleLists()), old(player.position), PlayerRadius)
      ensures terrain.ObstacleLists() == StruckAll(old(terrain.ObstacleLists()), old(player.position), PlayerRadius)
      ensures terrain.Layout() == old(terrain.Layout())
    {
      newHits := terrain.CheckCollisions(player.position, PlayerRadius);
      label struck:
      React(newHits);
      terrain.Untouched@struck();
    }

    /**
     * The gameplay step of one frame. While PLAYING the road's obstacles are
     * struck where the player stands and what they report is counted.
     */
    method Frame(terrain: TerrainManager, dt: real) returns (newHits: int)
      requires Valid() && terrain.Valid()
      modifies this, player, farmer, player.machine, farmer.machine, terrain.tiles
      ensures newHits >= 0 && Valid() && terrain.Valid() && View() == Step(old(View()), newHits, dt)
      ensures old(gameState) == Playing ==>
        newHits == TotalTouching(old(terrain.ObstacleLists()), old(player.position), PlayerRadius) &&
        terrain.ObstacleLists() == StruckAll(old(terrain.ObstacleLists()), old(player.position), PlayerRadius)
      ensures old(gameState) != Playing ==> newHits == 0 && terrain.ObstacleLists() == old(terrain.ObstacleLists())
      ensures terrain.Layout() == old(terrain.Layout())
    {
      newHits := 0;
      if gameState == Playing {
        newHits := PlayingFrame(terrain);
      } else if gameState == GameOverWalk {
        ChaseStep(dt);
      }
    }
  }
}
