/**
 * The endless road: tiles laid out one behind the other along -z, each with
 * at most one animated obstacle, a handful of decorations and five grass
 * instance buffers; a manager that reads a level file, hands out one tile
 * configuration after another, and recycles the tile the player has left
 * behind to the far end of the road.
 *
 * Each call of `rand()` in the game is an input here: a `Unit` stands for
 * `(float)rand() / RAND_MAX`, a `nat` for `rand()` itself.
 */
module Terrain {
  import opened Maths
  import opened Options
  import opened SkeletalAnimation
  import opened AnimationStateMachine

  /** `(float)rand() / RAND_MAX`. */
  type Unit = r: real | 0.0 <= r <= 1.0

  // ---------------------------------------------------------------------------
  // Obstacles

  /** An `Obstacle` as the tile's vector holds it: a copy, state machine included. */
  datatype Obstacle = Obstacle(
    model: Option<Animation>, position: Vec3, scale: Vec3, rotationY: real,
    hit: bool, collisionRadius: real, stateMachine: MachineState)

  /** What every obstacle keeps: its state machine's invariant. */
  predicate ObstacleOk(o: Obstacle)
  {
    MachineOk(o.stateMachine)
  }

  /** `Obstacle()`: no model, at the origin, not hit, radius 0.5. */
  const NewObstacle: Obstacle :=
    Obstacle(None, Vec3(0.0, 0.0, 0.0), Vec3(0.1, 0.1, 0.1), 0.0, false, 0.5, Initial)

  /** The clip an obstacle starts grazing with. */
  const Grazing: string := "eating"

  /**
   * `Obstacle::init`: placement, a cleared hit flag and a 0.8 radius; with a
   * model, the machine is bound to its asset, switched to "eating" and
   * advanced by a random 0 .. 5 seconds.
   */
  function InitObstacle(o: Obstacle, model: Option<Animation>, pos: Vec3, rotY: real, s: real, phase: Unit): (r: Obstacle)
    requires ObstacleOk(o)
    requires model.Some? ==> ValidAnimation(model.value) && ClipsIn(o.stateMachine, model.value)
    ensures ObstacleOk(r)
    ensures r.model == model && r.position == pos && !r.hit && r.collisionRadius == 0.8
  {
    Obstacle(model, pos, Vec3(s, s, s), rotY, false, 0.8, Grazed(o.stateMachine, model, phase))
  }

  /** The machine after `Obstacle::init`: untouched without a model. */
  function Grazed(m: MachineState, model: Option<Animation>, phase: Unit): (r: MachineState)
    requires MachineOk(m)
    requires model.Some? ==> ValidAnimation(model.value) && ClipsIn(m, model.value)
    ensures MachineOk(r)
  {
    if model.None? then m
    else AfterUpdate(AfterChange(Bind(m, model.value), Grazing, 0.0, true), phase * 5.0)
  }

  /**
   * A fresh obstacle given an asset that has an "eating" clip plays it, in a
   * loop, with no blend running; an asset without one leaves the machine bound
   * but idle.
   */
  lemma InitObstacleGrazes(model: Animation, pos: Vec3, rotY: real, s: real, phase: Unit)
    requires ValidAnimation(model)
    ensures var r := InitObstacle(NewObstacle, Some(model), pos, rotY, s, phase);
      !r.hit && r.position == pos && r.collisionRadius == 0.8 && r.stateMachine.animationData == Some(model)
    ensures var m := InitObstacle(NewObstacle, Some(model), pos, rotY, s, phase).stateMachine;
      Grazing in model.animations ==>
        Reported(m) == Grazing && !m.isBlending && m.currentLoop && m.current.usingAnimation == Grazing
    ensures var m := InitObstacle(NewObstacle, Some(model), pos, rotY, s, phase).stateMachine;
      Grazing !in model.animations ==> Reported(m) == ""
  {
    var bound := Bind(Initial, model);
    if Grazing in model.animations {
      FirstStateNoBlend(bound, Grazing, 0.0, true);
      var changed := AfterChange(bound, Grazing, 0.0, true);
      UpdateSteady(changed, phase * 5.0);
    } else {
      ChangeToUnknownIgnored(bound, Grazing, 0.0, true);
      UpdateWithoutBlend(bound, phase * 5.0);
    }
  }

  /** An idle bound machine stays idle across `update`. */
  lemma UpdateWithoutBlend(s: MachineState, dt: real)
    requires MachineOk(s) && dt >= 0.0 && s.animationData.Some? && !s.isBlending && s.currentStateName == ""
    ensures AfterUpdate(s, dt).currentStateName == "" && !AfterUpdate(s, dt).isBlending
  {
    UpdateSteady(s, dt);
  }

  /** `Obstacle::update`: only an obstacle with a model advances its machine. */
  function AnimateObstacle(o: Obstacle, dt: real): (r: Obstacle)
    requires ObstacleOk(o) && dt >= 0.0
    ensures ObstacleOk(r)
    ensures r.position == o.position && r.hit == o.hit && r.collisionRadius == o.collisionRadius
  {
    if o.model.None? then o else o.(stateMachine := AfterUpdate(o.stateMachine, dt))
  }

  // ---------------------------------------------------------------------------
  // Collisions

  /** The player disc and the obstacle's disc overlap in the ground plane: dx² + dz² < (r + R)². */
  predicate Overlaps(o: Obstacle, playerPos: Vec3, playerRadius: real)
  {
    var dx := playerPos.x - o.position.x;
    var dz := playerPos.z - o.position.z;
    var minDist := playerRadius + o.collisionRadius;
    dx * dx + dz * dz < minDist * minDist
  }

  /** A collision pass flags the obstacle: it overlaps the player and was not flagged yet. */
  predicate Touches(o: Obstacle, playerPos: Vec3, playerRadius: real)
  {
    !o.hit && Overlaps(o, playerPos, playerRadius)
  }

  /** One obstacle after a collision pass: marked hit if it was touched. */
  function Strike(o: Obstacle, playerPos: Vec3, playerRadius: real): Obstacle
  {
    if Touches(o, playerPos, playerRadius) then o.(hit := true) else o
  }

  /** The obstacle list after a collision pass. */
  function Struck(obs: seq<Obstacle>, playerPos: Vec3, playerRadius: real): (r: seq<Obstacle>)
    ensures |r| == |obs|
  {
    seq(|obs|, i requires 0 <= i < |obs| => Strike(obs[i], playerPos, playerRadius))
  }

  /** How many obstacles a collision pass reports. */
  function Touching(obs: seq<Obstacle>, playerPos: Vec3, playerRadius: real): (n: nat)
    ensures n <= |obs|
  {
    TouchingUpTo(obs, playerPos, playerRadius, |obs|)
  }

  function TouchingUpTo(obs: seq<Obstacle>, playerPos: Vec3, playerRadius: real, k: nat): (n: nat)
    requires k <= |obs|
    ensures n <= k
  {
    if k == 0 then 0
    else TouchingUpTo(obs, playerPos, playerRadius, k - 1) + (if Touches(obs[k - 1], playerPos, playerRadius) then 1 else 0)
  }

  /** How many obstacles carry the hit flag. */
  function HitCount(obs: seq<Obstacle>): (n: nat)
    ensures n <= |obs|
  {
    HitsUpTo(obs, |obs|)
  }

  /** How many of the first `k` obstacles carry the hit flag. */
  function HitsUpTo(obs: seq<Obstacle>, k: nat): (n: nat)
    requires k <= |obs|
    ensures n <= k
  {
    if k == 0 then 0 else HitsUpTo(obs, k - 1) + (if obs[k - 1].hit then 1 else 0)
  }

  /** Over every prefix, the pass flags exactly the obstacles it reports. */
  lemma {:induction false} HitsCountedUpTo(obs: seq<Obstacle>, playerPos: Vec3, playerRadius: real, k: nat)
    requires k <= |obs|
    ensures HitsUpTo(Struck(obs, playerPos, playerRadius), k)
         == HitsUpTo(obs, k) + TouchingUpTo(obs, playerPos, playerRadius, k)
  {
    if k > 0 {
      HitsCountedUpTo(obs, playerPos, playerRadius, k - 1);
    }
  }

  /**
   * A collision pass reports exactly the obstacles it newly flags: the hit
   * count grows by the number reported, and no flag is ever cleared.
   */
  lemma HitsCounted(obs: seq<Obstacle>, playerPos: Vec3, playerRadius: real)
    ensures HitCount(Struck(obs, playerPos, playerRadius)) == HitCount(obs) + Touching(obs, playerPos, playerRadius)
    ensures forall i :: 0 <= i < |obs| && obs[i].hit ==> Struck(obs, playerPos, playerRadius)[i].hit
  {
    HitsCountedUpTo(obs, playerPos, playerRadius, |obs|);
  }

  /** After a pass, no prefix holds an obstacle the same pass would report again. */
  lemma {:induction false} NoneTouchingUpTo(obs: seq<Obstacle>, playerPos: Vec3, playerRadius: real, k: nat)
    requires k <= |obs|
    ensures TouchingUpTo(Struck(obs, playerPos, playerRadius), playerPos, playerRadius, k) == 0
  {
    if k > 0 {
      NoneTouchingUpTo(obs, playerPos, playerRadius, k - 1);
    }
  }

  /** Each obstacle triggers at most once: a second pass at the same place reports nothing and changes nothing. */
  lemma StrikeOnce(obs: seq<Obstacle>, playerPos: Vec3, playerRadius: real)
    ensures Touching(Struck(obs, playerPos, playerRadius), playerPos, playerRadius) == 0
    ensures Struck(Struck(obs, playerPos, playerRadius), playerPos, playerRadius) == Struck(obs, playerPos, playerRadius)
  {
    NoneTouchingUpTo(obs, playerPos, playerRadius, |obs|);
  }

  /** Every obstacle of a tile after one `update(dt)`. */
  function Animated(obs: seq<Obstacle>, dt: real): (r: seq<Obstacle>)
    requires dt >= 0.0 && forall i :: 0 <= i < |obs| ==> ObstacleOk(obs[i])
    ensures |r| == |obs| && forall i :: 0 <= i < |r| ==> ObstacleOk(r[i])
  {
    seq(|obs|, i requires 0 <= i < |obs| => AnimateObstacle(obs[i], dt))
  }

  /**
   * Animation never changes what a collision pass sees: the same obstacles
   * are reported before and after an `update`, and the hit count is the same.
   */
  lemma {:induction false} AnimationKeepsCollisions(obs: seq<Obstacle>, dt: real, playerPos: Vec3, playerRadius: real, k: nat)
    requires dt >= 0.0 && forall i :: 0 <= i < |obs| ==> ObstacleOk(obs[i])
    requires k <= |obs|
    ensures TouchingUpTo(Animated(obs, dt), playerPos, playerRadius, k) == TouchingUpTo(obs, playerPos, playerRadius, k)
    ensures HitsUpTo(Animated(obs, dt), k) == HitsUpTo(obs, k)
  {
    if k > 0 {
      AnimationKeepsCollisions(obs, dt, playerPos, playerRadius, k - 1);
      AnimateKeepsContact(obs[k - 1], dt, playerPos, playerRadius);
    }
  }

  /** One obstacle: animation keeps its hit flag and whether the player touches it. */
  lemma AnimateKeepsContact(o: Obstacle, dt: real, playerPos: Vec3, playerRadius: real)
    requires ObstacleOk(o) && dt >= 0.0
    ensures AnimateObstacle(o, dt).hit == o.hit
    ensures Touches(AnimateObstacle(o, dt), playerPos, playerRadius) == Touches(o, playerPos, playerRadius)
  {
    var a := AnimateObstacle(o, dt);
    assert a.position == o.position && a.collisionRadius == o.collisionRadius;
  }

  // ---------------------------------------------------------------------------
  // Grass instance buffers

  /** Number of grass kinds, one instance buffer each. */
  const MaxGrassTypes := 5

  /** Grass tufts per tile: 31 columns on one side and 6 on the other, 13 rows each. */
  const GrassPerTile := 31 * 13 + 6 * 13

  /** The smallest buffer ever allocated, in instances. */
  const MinCapacity := 64

  /**
   * One kind's buffer: whether it exists (`instanceBuffers[i] != nullptr`),
   * the instances it holds and how many it has room for.
   */
  datatype GrassSlot = GrassSlot(buffer: bool, count: int, capacity: int)

  const EmptySlot := GrassSlot(false, 0, 0)

  /** A slot holds no more than it has room for, and has room only when it has a buffer of at least the minimum size. */
  predicate SlotOk(s: GrassSlot)
  {
    0 <= s.count <= s.capacity && (s.buffer ==> s.capacity >= MinCapacity) && (!s.buffer ==> s.capacity == 0)
  }

  /** The capacity a new buffer gets: one and a half times the count, truncated, and at least 64. */
  function Capacity(n: int): (c: int)
    requires n >= 0
    ensures c >= n && c >= MinCapacity
    ensures c == if (n as real * 1.5).Floor < MinCapacity then MinCapacity else (n as real * 1.5).Floor
  {
    var grown := (n as real * 1.5).Floor;
    assert n as real <= n as real * 1.5;
    if grown < MinCapacity then MinCapacity else grown
  }

  /** A new buffer is needed: there are instances and no buffer, or more than fit. */
  predicate Reallocates(s: GrassSlot, n: int)
  {
    n > 0 && (!s.buffer || n > s.capacity)
  }

  /** The old buffer is released, so the GPU queue is flushed first. */
  predicate Replaces(s: GrassSlot, n: int)
  {
    Reallocates(s, n) && s.buffer
  }

  /** The slot after `generateGrass` has put n instances of its kind. */
  function Provision(s: GrassSlot, n: int): GrassSlot
    requires n >= 0
  {
    if Reallocates(s, n) then GrassSlot(true, n, Capacity(n)) else s.(count := n)
  }

  /**
   * The capacity policy: the slot holds n instances, which fit whenever there
   * are any; a buffer is created only when there is none or it is too small,
   * and then with room for max(64, floor(1.5 n)); otherwise buffer and
   * capacity are kept. The slot invariant is preserved.
   */
  lemma ProvisionPolicy(s: GrassSlot, n: int)
    requires SlotOk(s) && n >= 0
    ensures var r := Provision(s, n);
      SlotOk(r) && r.count == n && (n > 0 ==> r.buffer && n <= r.capacity)
    ensures var r := Provision(s, n);
      Reallocates(s, n) ==> r.capacity == Capacity(n)
    ensures var r := Provision(s, n);
      !Reallocates(s, n) ==> r.buffer == s.buffer && r.capacity == s.capacity
  {
  }

  /** The slots after `generateGrass`. */
  function Provisioned(slots: seq<GrassSlot>, counts: seq<int>): (r: seq<GrassSlot>)
    requires |slots| == |counts| && forall i :: 0 <= i < |counts| ==> counts[i] >= 0
    ensures |r| == |slots|
  {
    seq(|slots|, i requires 0 <= i < |slots| => Provision(slots[i], counts[i]))
  }

  /** How many of the first n slots had their buffer replaced, i.e. how many queue flushes happened. */
  function Flushes(slots: seq<GrassSlot>, counts: seq<int>, n: nat): (f: nat)
    requires n <= |slots| == |counts|
    ensures f <= n
  {
    if n == 0 then 0 else Flushes(slots, counts, n - 1) + (if Replaces(slots[n - 1], counts[n - 1]) then 1 else 0)
  }

  /** A tile whose buffers all exist and are large enough never flushes. */
  lemma {:induction false} NoFlushWhenRoomy(slots: seq<GrassSlot>, counts: seq<int>, n: nat)
    requires n <= |slots| == |counts|
    requires forall i :: 0 <= i < n ==> counts[i] <= slots[i].capacity
    ensures Flushes(slots, counts, n) == 0
  {
    if n > 0 {
      NoFlushWhenRoomy(slots, counts, n - 1);
    }
  }

  /** How many of the first n tufts draw kind t (`rand() % MAX_GRASS_TYPES`). */
  function KindCount(kinds: nat -> nat, t: int, n: nat): (c: nat)
    ensures c <= n
  {
    if n == 0 then 0 else KindCount(kinds, t, n - 1) + (if kinds(n - 1) % MaxGrassTypes == t then 1 else 0)
  }

  /** Per-kind counts of the first n tufts; `generateGrass` places `GrassPerTile` of them. */
  function GrassCounts(kinds: nat -> nat, n: nat): (r: seq<int>)
    ensures |r| == MaxGrassTypes && forall t :: 0 <= t < MaxGrassTypes ==> 0 <= r[t]
  {
    seq(MaxGrassTypes, t requires 0 <= t < MaxGrassTypes => KindCount(kinds, t, n))
  }

  /** Sum of the first k entries. */
  function SumUpTo(counts: seq<int>, k: nat): int
    requires k <= |counts|
  {
    if k == 0 then 0 else SumUpTo(counts, k - 1) + counts[k - 1]
  }

  /** Every tuft lands in exactly one of the five buckets. */
  lemma {:induction false} KindsPartition(kinds: nat -> nat, n: nat)
    ensures KindCount(kinds, 0, n) + KindCount(kinds, 1, n) + KindCount(kinds, 2, n) +
            KindCount(kinds, 3, n) + KindCount(kinds, 4, n) == n
  {
    if n > 0 {
      KindsPartition(kinds, n - 1);
    }
  }

  /** The buckets together hold every tuft placed: 481 for one `generateGrass`. */
  lemma GrassTotal(kinds: nat -> nat, n: nat)
    ensures SumUpTo(GrassCounts(kinds, n), MaxGrassTypes) == n
    ensures GrassPerTile == 481
  {
    var counts := GrassCounts(kinds, n);
    KindsPartition(kinds, n);
    assert SumUpTo(counts, 1) == counts[0];
    assert SumUpTo(counts, 2) == counts[0] + counts[1];
    assert SumUpTo(counts, 3) == SumUpTo(counts, 2) + counts[2];
    assert SumUpTo(counts, 4) == SumUpTo(counts, 3) + counts[3];
  }

  // ---------------------------------------------------------------------------
  // Obstacle and decoration placement

  /** The two random draws of `generateObstacles`: position along the tile and the animation phase. */
  datatype ObstacleRoll = ObstacleRoll(along: Unit, phase: Unit)

  /** What `generateObstacles` leaves: nothing for no model or type 0; one obstacle in the left lane for type 1, the right lane otherwise. */
  function Placed(tilePos: Vec3, length: real, model: Option<Animation>, obstacleType: int, roll: ObstacleRoll): (r: seq<Obstacle>)
    requires model.Some? ==> ValidAnimation(model.value)
    ensures forall i :: 0 <= i < |r| ==> ObstacleOk(r[i])
  {
    if model.None? || obstacleType == 0 then []
    else [InitObstacle(NewObstacle, model, LanePosition(tilePos, length, obstacleType, roll.along),
                       if obstacleType == 1 then 1.57 else -1.57, 0.11, roll.phase)]
  }

  /** Where `generateObstacles` puts the obstacle: in its lane, within 30% of the tile length from the tile's centre, slightly sunk. */
  function LanePosition(tilePos: Vec3, length: real, obstacleType: int, along: Unit): Vec3
  {
    Vec3(tilePos.x + (if obstacleType == 1 then 5.0 else -5.3), tilePos.y - 0.8,
         tilePos.z + (along - 0.5) * (length * 0.6))
  }

  /** The lane rule: at most one obstacle, not yet hit, 5.0 to the left for type 1 and 5.3 to the right for any other nonzero type. */
  lemma ObstacleLane(tilePos: Vec3, length: real, model: Option<Animation>, obstacleType: int, roll: ObstacleRoll)
    requires model.Some? ==> ValidAnimation(model.value)
    ensures var r := Placed(tilePos, length, model, obstacleType, roll);
      |r| == (if model.None? || obstacleType == 0 then 0 else 1)
    ensures var r := Placed(tilePos, length, model, obstacleType, roll);
      |r| == 1 ==>
        !r[0].hit && r[0].collisionRadius == 0.8 &&
        r[0].position.x == tilePos.x + (if obstacleType == 1 then 5.0 else -5.3) &&
        (length >= 0.0 ==> tilePos.z - 0.3 * length <= r[0].position.z <= tilePos.z + 0.3 * length)
  {
    if model.Some? && obstacleType != 0 {
      var r := Placed(tilePos, length, model, obstacleType, roll);
      assert r[0].position.z == tilePos.z + (roll.along - 0.5) * (length * 0.6);
      assert r[0].position.x == tilePos.x + (if obstacleType == 1 then 5.0 else -5.3);
      if length >= 0.0 {
        OffsetWithin(roll.along, length * 0.6);
      }
    }
  }

  /** A random offset (u - 0.5) * span stays within half the span of the centre. */
  lemma OffsetWithin(u: Unit, span: real)
    requires span >= 0.0
    ensures -span / 2.0 <= (u - 0.5) * span <= span / 2.0
  {
    assert u * span >= 0.0 && (1.0 - u) * span >= 0.0;
  }

  /** A mushroom beside the road. */
  datatype Decoration = Decoration(position: Vec3, scale: real, rotationY: real)

  /** The five random draws of one decoration: side, distance, position along the tile, size and turn. */
  datatype DecorationRoll = DecorationRoll(side: nat, spread: Unit, along: Unit, size: Unit, turn: Unit)

  /** One decoration of `generateDecorations`: left for an even draw, 18 .. 35 units off the road centre. */
  function Decorate(tilePos: Vec3, length: real, roll: DecorationRoll): Decoration
  {
    var xOffset := 18.0 + roll.spread * 17.0;
    Decoration(Vec3(tilePos.x + (if roll.side % 2 == 0 then xOffset else -xOffset), tilePos.y - 0.8,
                    tilePos.z + (roll.along - 0.5) * length),
               0.007 + roll.size * 0.01, roll.turn * 6.28)
  }

  /** The decorations `generateDecorations(count)` leaves: one per draw, none for a count below one. */
  function Decorations(tilePos: Vec3, length: real, count: int, rolls: nat -> DecorationRoll): (r: seq<Decoration>)
    ensures |r| == if count < 0 then 0 else count
  {
    seq(if count < 0 then 0 else count, i requires 0 <= i => Decorate(tilePos, length, rolls(i)))
  }

  /**
   * Decorations stay off the road: each lies 18 to 35 units to the side of
   * the tile's centre line, on the side its draw picks, within half a tile
   * length along it, and is between 0.007 and 0.017 in scale.
   */
  lemma DecorationsOffRoad(tilePos: Vec3, length: real, count: int, rolls: nat -> DecorationRoll, i: int)
    requires 0 <= i < count && length >= 0.0
    ensures var d := Decorations(tilePos, length, count, rolls)[i];
      var dx := d.position.x - tilePos.x;
      (rolls(i).side % 2 == 0 ==> 18.0 <= dx <= 35.0) && (rolls(i).side % 2 != 0 ==> -35.0 <= dx <= -18.0) &&
      tilePos.z - length / 2.0 <= d.position.z <= tilePos.z + length / 2.0 &&
      0.007 <= d.scale <= 0.017
  {
    OffsetWithin(rolls(i).along, length);
  }

  // ---------------------------------------------------------------------------
  // A tile

  /** `TerrainTile`: where it sits, what stands on it, and its grass buffers. */
  class TerrainTile {
    var position: Vec3
    var length: real
    var obstacles: seq<Obstacle>
    var decorations: seq<Decoration>
    /** `instanceBuffers`, `instanceCounts` and `bufferCapacities`, one slot per grass kind. */
    var slots: seq<GrassSlot>
    var buffersCreated: bool

    ghost predicate Valid()
      reads this
    {
      |slots| == MaxGrassTypes && (forall i :: 0 <= i < |slots| ==> SlotOk(slots[i])) &&
      forall i :: 0 <= i < |obstacles| ==> ObstacleOk(obstacles[i])
    }

    /** `TerrainTile()`: at the origin, 20 long, empty, no buffers. */
    constructor ()
      ensures Valid()
      ensures position == Vec3(0.0, 0.0, 0.0) && length == 20.0 && obstacles == [] && decorations == []
      ensures slots == seq(MaxGrassTypes, _ => EmptySlot) && !buffersCreated
    {
      position := Vec3(0.0, 0.0, 0.0);
      length := 20.0;
      obstacles := [];
      decorations := [];
      slots := seq(MaxGrassTypes, _ => EmptySlot);
      buffersCreated := false;
    }

    /** `cleanupBuffers`: every buffer released, every count and capacity back to 0. */
    method CleanupBuffers()
      requires Valid()
      modifies this
      ensures Valid() && slots == seq(MaxGrassTypes, _ => EmptySlot) && !buffersCreated
      ensures position == old(position) && length == old(length)
      ensures obstacles == old(obstacles) && decorations == old(decorations)
    {
      var i := 0;
      while i < MaxGrassTypes
        invariant 0 <= i <= MaxGrassTypes == |slots|
        invariant forall j :: 0 <= j < i ==> slots[j] == EmptySlot
        invariant forall j :: i <= j < MaxGrassTypes ==> SlotOk(slots[j])
        invariant position == old(position) && length == old(length)
        invariant obstacles == old(obstacles) && decorations == old(decorations)
      {
        slots := slots[i := EmptySlot];
        i := i + 1;
      }
      buffersCreated := false;
    }

    /**
     * `checkCollisions`: flags every obstacle the player disc touches and was
     * not flagged yet, and reports how many that was.
     */
    method CheckCollisions(playerPos: Vec3, playerRadius: real) returns (hits: int)
      requires Valid()
      modifies this
      ensures Valid()
      ensures obstacles == Struck(old(obstacles), playerPos, playerRadius)
      ensures hits == Touching(old(obstacles), playerPos, playerRadius)
      ensures position == old(position) && length == old(length) && decorations == old(decorations)
      ensures slots == old(slots) && buffersCreated == old(buffersCreated)
    {
      ghost var before := obstacles;
      hits := 0;
      var i := 0;
      while i < |obstacles|
        invariant |obstacles| == |before|
        invariant 0 <= i <= |before|
        invariant forall j :: 0 <= j < i ==> obstacles[j] == Strike(before[j], playerPos, playerRadius)
        invariant forall j :: i <= j < |obstacles| ==> obstacles[j] == before[j]
        invariant hits == TouchingUpTo(before, playerPos, playerRadius, i)
        invariant forall j :: 0 <= j < |obstacles| ==> obstacles[j].stateMachine == before[j].stateMachine
        invariant position == old(position) && length == old(length) && decorations == old(decorations)
        invariant slots == old(slots) && buffersCreated == old(buffersCreated)
      {
        var obs := obstacles[i];
        if !obs.hit {
          if Overlaps(obs, playerPos, playerRadius) {
            obstacles := obstacles[i := obs.(hit := true)];
            hits := hits + 1;
          }
        }
        assert obstacles[i] == Strike(before[i], playerPos, playerRadius);
        i := i + 1;
      }
    }

    /**
     * `generateGrass`: 481 tufts, tuft k of kind `kinds(k) % 5`; then every
     * kind's slot is provisioned for its count, and each released buffer costs
     * one queue flush, which is what `flushes` counts.
     */
    method GenerateGrass(kinds: nat -> nat) returns (flushes: nat)
      requires Valid()
      modifies this
      ensures Valid() && buffersCreated
      ensures slots == Provisioned(old(slots), GrassCounts(kinds, GrassPerTile))
      ensures flushes == Flushes(old(slots), GrassCounts(kinds, GrassPerTile), MaxGrassTypes)
      ensures position == old(position) && length == old(length)
      ensures obstacles == old(obstacles) && decorations == old(decorations)
    {
      var counts := seq(MaxGrassTypes, _ => 0);
      var k := 0;
      var x := -30;
      while x <= 0
        invariant -30 <= x <= 1 && k == (x + 30) * 13
        invariant |counts| == MaxGrassTypes && forall t :: 0 <= t < MaxGrassTypes ==> counts[t] == KindCount(kinds, t, k)
      {
        var z := -6;
        while z <= 6
          invariant -6 <= z <= 7 && k == (x + 30) * 13 + (z + 6)
          invariant |counts| == MaxGrassTypes && forall t :: 0 <= t < MaxGrassTypes ==> counts[t] == KindCount(kinds, t, k)
        {
          var kind := kinds(k) % MaxGrassTypes;
          counts := counts[kind := counts[kind] + 1];
          k := k + 1;
          z := z + 1;
        }
        x := x + 1;
      }
      x := 0;
      while x <= 5
        invariant 0 <= x <= 6 && k == 31 * 13 + x * 13
        invariant |counts| == MaxGrassTypes && forall t :: 0 <= t < MaxGrassTypes ==> counts[t] == KindCount(kinds, t, k)
      {
        var z := -6;
        while z <= 6
          invariant -6 <= z <= 7 && k == 31 * 13 + x * 13 + (z + 6)
          invariant |counts| == MaxGrassTypes && forall t :: 0 <= t < MaxGrassTypes ==> counts[t] == KindCount(kinds, t, k)
        {
          var kind := kinds(k) % MaxGrassTypes;
          counts := counts[kind := counts[kind] + 1];
          k := k + 1;
          z := z + 1;
        }
        x := x + 1;
      }
      assert counts == GrassCounts(kinds, GrassPerTile);
      flushes := ProvisionSlots(counts);
      buffersCreated := true;
    }

    /** The second half of `generateGrass`: each kind's slot is provisioned for its count. */
    method ProvisionSlots(counts: seq<int>) returns (flushes: nat)
      requires Valid() && |counts| == MaxGrassTypes && forall t :: 0 <= t < MaxGrassTypes ==> counts[t] >= 0
      modifies this
      ensures Valid() && slots == Provisioned(old(slots), counts)
      ensures flushes == Flushes(old(slots), counts, MaxGrassTypes)
      ensures position == old(position) && length == old(length) && buffersCreated == old(buffersCreated)
      ensures obstacles == old(obstacles) && decorations == old(decorations)
    {
      ghost var before := slots;
      flushes := 0;
      var i := 0;
      while i < MaxGrassTypes
        invariant 0 <= i <= MaxGrassTypes == |slots|
        invariant forall j :: 0 <= j < i ==> slots[j] == Provision(before[j], counts[j])
        invariant forall j :: i <= j < MaxGrassTypes ==> slots[j] == before[j]
        invariant forall j :: 0 <= j < MaxGrassTypes ==> SlotOk(slots[j])
        invariant flushes == Flushes(before, counts, i)
        invariant position == old(position) && length == old(length) && buffersCreated == old(buffersCreated)
        invariant obstacles == old(obstacles) && decorations == old(decorations)
      {
        var newCount := counts[i];
        var slot := slots[i].(count := newCount);
        if newCount > 0 {
          if !slot.buffer || newCount > slot.capacity {
            if slot.buffer {
              // the queue is flushed before the old buffer is released
              flushes := flushes + 1;
              slot := slot.(buffer := false);
            }
            var newCapacity := (newCount as real * 1.5).Floor;
            if newCapacity < MinCapacity {
              newCapacity := MinCapacity;
            }
            slot := slot.(capacity := newCapacity, buffer := true);
          }
        }
        ProvisionPolicy(before[i], newCount);
        slots := slots[i := slot];
        i := i + 1;
      }
    }

    /** `generateObstacles`: the old obstacles are dropped and at most one new one is placed. */
    method GenerateObstacles(model: Option<Animation>, obstacleType: int, roll: ObstacleRoll)
      requires Valid() && (model.Some? ==> ValidAnimation(model.value))
      modifies this
      ensures Valid() && obstacles == Placed(position, length, model, obstacleType, roll)
      ensures position == old(position) && length == old(length) && decorations == old(decorations)
      ensures slots == old(slots) && buffersCreated == old(buffersCreated)
    {
      obstacles := [];
      if model.None? {
        return;
      }
      if obstacleType == 0 {
        return;
      }
      var isLeft := obstacleType == 1;
      var xPos := if isLeft then 5.0 else -5.3;
      var rotY := if isLeft then 1.57 else -1.57;
      var zOffset := (roll.along - 0.5) * (length * 0.6);
      var obsPos := Vec3(position.x + xPos, position.y - 0.8, position.z + zOffset);
      assert obsPos == LanePosition(position, length, obstacleType, roll.along);
      var obs := InitObstacle(NewObstacle, model, obsPos, rotY, 0.11, roll.phase);
      obstacles := obstacles + [obs];
    }

    /** `generateDecorations(count)`: the old decorations are dropped and `count` new ones placed, draw by draw. */
    method GenerateDecorations(count: int, rolls: nat -> DecorationRoll)
      requires Valid()
      modifies this
      ensures Valid() && decorations == Decorations(position, length, count, rolls)
      ensures position == old(position) && length == old(length) && obstacles == old(obstacles)
      ensures slots == old(slots) && buffersCreated == old(buffersCreated)
    {
      decorations := [];
      var i := 0;
      while i < count
        invariant 0 <= i <= (if count < 0 then 0 else count)
        invariant decorations == Decorations(position, length, i, rolls)
        invariant Valid()
        invariant position == old(position) && length == old(length) && obstacles == old(obstacles)
        invariant slots == old(slots) && buffersCreated == old(buffersCreated)
      {
        decorations := decorations + [Decorate(position, length, rolls(i))];
        assert decorations == Decorations(position, length, i + 1, rolls);
        i := i + 1;
      }
    }

    /** `update(dt)`: every obstacle advances its animation by `dt`. */
    method Update(dt: real)
      requires Valid() && dt >= 0.0
      modifies this
      ensures Valid() && obstacles == Animated(old(obstacles), dt)
      ensures position == old(position) && length == old(length) && decorations == old(decorations)
      ensures slots == old(slots) && buffersCreated == old(buffersCreated)
    {
      ghost var before := obstacles;
      var i := 0;
      while i < |obstacles|
        invariant |obstacles| == |before| && 0 <= i <= |before|
        invariant forall j :: 0 <= j < i ==> obstacles[j] == AnimateObstacle(before[j], dt)
        invariant forall j :: i <= j < |obstacles| ==> obstacles[j] == before[j]
        invariant Valid()
        invariant position == old(position) && length == old(length) && decorations == old(decorations)
        invariant slots == old(slots) && buffersCreated == old(buffersCreated)
      {
        obstacles := obstacles[i := AnimateObstacle(obstacles[i], dt)];
        i := i + 1;
      }
    }

    /** `setPosition`. */
    method SetPosition(pos: Vec3)
      modifies this
      ensures position == pos && length == old(length) && obstacles == old(obstacles) && decorations == old(decorations)
      ensures slots == old(slots) && buffersCreated == old(buffersCreated)
    {
      position := pos;
    }
  }
}
