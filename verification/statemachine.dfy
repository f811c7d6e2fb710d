/**
 * The cross-fade state machine that drives an animated character: a current
 * and a next animation instance, a blend clock, per-state loop flags, and an
 * output instance whose palette is either the current one or a per-component
 * linear blend of the two.
 */
module AnimationStateMachine {
  import opened Maths
  import opened Options
  import opened SkeletalAnimation

  /** The blend length `changeState` uses when the caller gives none, in seconds. */
  const DefaultBlend: real := 0.2

  // ---------------------------------------------------------------------------
  // Blending two palettes

  /** Component k of the result is a[k] * (1 - w) + b[k] * w. */
  function BlendMatrix(a: Matrix, b: Matrix, w: real): Matrix
  {
    seq(16, k requires 0 <= k < 16 => a[k] * (1.0 - w) + b[k] * w)
  }

  /** Blends two palettes entry by entry. */
  function BlendPalette(p1: seq<Matrix>, p2: seq<Matrix>, w: real): (r: seq<Matrix>)
    requires |p1| == |p2|
    ensures |r| == |p1|
  {
    seq(|p1|, i requires 0 <= i < |p1| => BlendMatrix(p1[i], p2[i], w))
  }

  /** The blend weight: elapsed blend time over blend length, clamped to [0, 1]. */
  function BlendWeight(blendTime: real, blendDuration: real): (w: real)
    requires blendDuration != 0.0
    ensures 0.0 <= w <= 1.0
    ensures 0.0 <= blendTime / blendDuration <= 1.0 ==> w == blendTime / blendDuration
    ensures blendTime / blendDuration < 0.0 ==> w == 0.0
    ensures blendTime / blendDuration > 1.0 ==> w == 1.0
  {
    Clamp(blendTime / blendDuration, 0.0, 1.0)
  }

  /** At weight 0 the blend is the first matrix, at weight 1 the second. */
  lemma BlendEndpoints(a: Matrix, b: Matrix)
    ensures BlendMatrix(a, b, 0.0) == a
    ensures BlendMatrix(a, b, 1.0) == b
  {
    assert forall k :: 0 <= k < 16 ==> BlendMatrix(a, b, 0.0)[k] == a[k];
    assert forall k :: 0 <= k < 16 ==> BlendMatrix(a, b, 1.0)[k] == b[k];
  }

  /** Blending a matrix with itself gives it back, whatever the weight. */
  lemma BlendSame(a: Matrix, w: real)
    ensures BlendMatrix(a, a, w) == a
  {
    assert forall k :: 0 <= k < 16 ==> BlendMatrix(a, a, w)[k] == a[k];
  }

  /** With a weight in [0, 1] every blended component lies between the two inputs. */
  lemma BlendBetween(a: Matrix, b: Matrix, w: real, k: int)
    requires 0.0 <= w <= 1.0 && 0 <= k < 16
    ensures a[k] <= b[k] ==> a[k] <= BlendMatrix(a, b, w)[k] <= b[k]
    ensures b[k] <= a[k] ==> b[k] <= BlendMatrix(a, b, w)[k] <= a[k]
  {
    MixBetween(a[k], b[k], w, BlendMatrix(a, b, w)[k]);
  }

  /** x * (1 - w) + y * w moves from x to y as w goes from 0 to 1. */
  lemma MixBetween(x: real, y: real, w: real, mix: real)
    requires 0.0 <= w <= 1.0 && mix == x * (1.0 - w) + y * w
    ensures x <= y ==> x <= mix <= y
    ensures y <= x ==> y <= mix <= x
  {
    var d := y - x;
    assert mix == x + d * w;
    assert d * w == d - d * (1.0 - w);
    if x <= y {
      assert 0.0 <= d * w && 0.0 <= d * (1.0 - w);
    } else {
      assert d * w <= 0.0 && d * (1.0 - w) <= 0.0;
    }
  }

  // ---------------------------------------------------------------------------
  // The machine as a value

  /** Everything a `StateMachine` holds, as a value; the instances are their `InstanceState`s. */
  datatype MachineState = MachineState(
    animationData: Option<Animation>,
    current: InstanceState, next: InstanceState, output: InstanceState,
    currentStateName: string, nextStateName: string,
    isBlending: bool, blendTime: real, blendDuration: real,
    currentLoop: bool, nextLoop: bool)

  /** An instance with full palettes and a non-negative clock. */
  predicate Sized(i: InstanceState)
  {
    |i.matrices| == MaxBones && |i.matricesPose| == MaxBones && i.t >= 0.0
  }

  /** A clip name the instance may hold: none yet, or one of the asset's. */
  predicate KnownClip(a: Animation, name: string)
  {
    name == "" || name in a.animations
  }

  /** Every clip name the machine refers to is one `a` has. */
  predicate ClipsIn(s: MachineState, a: Animation)
  {
    KnownClip(a, s.currentStateName) && (s.isBlending ==> s.nextStateName in a.animations) &&
    KnownClip(a, s.current.usingAnimation) && KnownClip(a, s.next.usingAnimation) &&
    KnownClip(a, s.output.usingAnimation)
  }

  /**
   * The invariant the machine keeps. Before an asset is bound nothing has
   * been played; afterwards all three instances play that asset and every
   * name refers to one of its clips.
   */
  predicate MachineOk(s: MachineState)
  {
    Sized(s.current) && Sized(s.next) && Sized(s.output) && s.blendTime >= 0.0 &&
    match s.animationData
    case None =>
      s.currentStateName == "" && !s.isBlending &&
      s.current.usingAnimation == "" && s.next.usingAnimation == "" && s.output.usingAnimation == ""
    case Some(a) =>
      ValidAnimation(a) && ClipsIn(s, a) &&
      s.current.animation == s.animationData && s.next.animation == s.animationData &&
      s.output.animation == s.animationData
  }

  /** What the constructor leaves: no asset, nothing playing, a 0.2 s blend length, both loop flags set. */
  const Initial: MachineState :=
    MachineState(None, FreshInstance(), FreshInstance(), FreshInstance(), "", "", false, 0.0, DefaultBlend, true, true)

  /** `init` with an asset: the machine and each instance are bound to it. */
  function Bind(s: MachineState, a: Animation): (r: MachineState)
    requires MachineOk(s) && ValidAnimation(a) && ClipsIn(s, a)
    ensures MachineOk(r) && r.animationData == Some(a)
  {
    s.(animationData := Some(a),
       current := s.current.(animation := Some(a)),
       next := s.next.(animation := Some(a)),
       output := s.output.(animation := Some(a)))
  }

  /**
   * `changeState` can run: with no asset bound only the request that leaves
   * the state as it is avoids calling into an instance with no asset.
   */
  predicate CanChange(s: MachineState, newState: string)
  {
    s.animationData.Some? || (s.currentStateName == newState && !s.isBlending)
  }

  /** The blend target takes over: its instance, name and loop flag become current. */
  function Commit(s: MachineState): (r: MachineState)
    requires MachineOk(s) && s.isBlending
    ensures MachineOk(r)
  {
    s.(current := s.next, currentStateName := s.nextStateName, currentLoop := s.nextLoop)
  }

  /** A new target: its name and loop flag are recorded and the target instance's clock is rewound. */
  function Retarget(s: MachineState, newState: string, loop: bool): (r: MachineState)
    requires MachineOk(s) && s.animationData.Some? && newState in s.animationData.value.animations
    ensures MachineOk(r)
  {
    s.(nextStateName := newState, nextLoop := loop, next := s.next.(t := 0.0))
  }

  /** The first state: the current instance starts the clip, and next and output become copies of it. */
  function EnterFirst(s: MachineState, newState: string, loop: bool): (r: MachineState)
    requires MachineOk(s) && s.animationData.Some? && newState in s.animationData.value.animations
    ensures MachineOk(r)
  {
    Settle(PlayFrom(s, newState, loop))
  }

  /** The current instance switches to the given clip at time 0. */
  function PlayFrom(s: MachineState, newState: string, loop: bool): (r: MachineState)
    requires MachineOk(s) && s.animationData.Some? && newState in s.animationData.value.animations
    ensures MachineOk(r)
  {
    s.(currentStateName := newState, currentLoop := loop, current := InstanceUpdate(s.current, newState, 0.0))
  }

  /** Target and output become copies of the current instance, and no blend runs. */
  function Settle(s: MachineState): (r: MachineState)
    requires MachineOk(s)
    ensures MachineOk(r)
  {
    s.(next := s.current, output := s.current, isBlending := false)
  }

  /** A blend of the given length starts from time 0. */
  function StartBlend(s: MachineState, duration: real): (r: MachineState)
    requires MachineOk(s) && s.animationData.Some? && s.nextStateName in s.animationData.value.animations
    ensures MachineOk(r)
  {
    s.(isBlending := true, blendTime := 0.0, blendDuration := duration)
  }

  /** `StateMachine::changeState`, branch by branch. */
  function AfterChange(s: MachineState, newState: string, duration: real, loop: bool): (r: MachineState)
    requires MachineOk(s) && CanChange(s, newState)
    ensures MachineOk(r)
  {
    if s.animationData.Some? && newState !in s.animationData.value.animations then s
    else if s.currentStateName == newState && !s.isBlending then s.(currentLoop := loop)
    else
      var s1 := if s.isBlending then Commit(s) else s;
      var s2 := Retarget(s1, newState, loop);
      if s2.currentStateName == "" then EnterFirst(s2, newState, loop) else StartBlend(s2, duration)
  }

  /** `getState`: the state being blended to, or else the current one. */
  function Reported(s: MachineState): string
  {
    if s.isBlending then s.nextStateName else s.currentStateName
  }

  /** `isAnimationFinished`: never while blending, otherwise whether the current instance ran off its clip. */
  predicate MachineFinished(s: MachineState)
    requires MachineOk(s) && s.animationData.Some?
    requires s.isBlending || s.current.usingAnimation in s.animationData.value.animations
  {
    !s.isBlending && InstanceFinished(s.current)
  }

  /** One instance's step in `update`: advance it, and rewind a finished clip only when it loops. */
  function Advance(i: InstanceState, name: string, dt: real, loop: bool): (r: InstanceState)
    requires Playable(i) && name in i.animation.value.animations && dt >= 0.0
    ensures OnClip(r) && r.usingAnimation == name && r.animation == i.animation
  {
    var u := InstanceUpdate(i, name, dt);
    if InstanceFinished(u) && loop then u.(t := 0.0) else u
  }

  /** `calculateMatrices`: the output copies the current instance, or blends the two palettes. */
  function Calculated(s: MachineState): (r: MachineState)
    requires MachineOk(s) && (s.isBlending ==> 0.0 <= s.blendTime < s.blendDuration)
    ensures MachineOk(r)
  {
    if !s.isBlending then s.(output := s.current)
    else s.(output := s.output.(matrices := BlendPalette(s.current.matrices, s.next.matrices,
                                                         BlendWeight(s.blendTime, s.blendDuration))))
  }

  /** While blending, `update` advances the target instance as well. */
  function AdvanceNext(s: MachineState, dt: real): (r: MachineState)
    requires MachineOk(s) && s.animationData.Some? && s.isBlending && dt >= 0.0
    ensures MachineOk(r)
  {
    s.(next := Advance(s.next, s.nextStateName, dt, s.nextLoop))
  }

  /** The blend clock runs; once it reaches the blend length the target takes over and the blend ends. */
  function Tick(s: MachineState, dt: real): (r: MachineState)
    requires MachineOk(s) && s.isBlending && dt >= 0.0
    ensures MachineOk(r)
    ensures r.isBlending ==> 0.0 <= r.blendTime < r.blendDuration
  {
    var s1 := s.(blendTime := s.blendTime + dt);
    if s1.blendTime >= s1.blendDuration then Commit(s1).(isBlending := false) else s1
  }

  /** The second step of `update`. */
  function Blended(s: MachineState, dt: real): (r: MachineState)
    requires MachineOk(s) && s.animationData.Some? && dt >= 0.0
    ensures MachineOk(r)
    ensures r.isBlending ==> 0.0 <= r.blendTime < r.blendDuration
  {
    if !s.isBlending then s else Tick(AdvanceNext(s, dt), dt)
  }

  /** The first step of `update`: a current state that is set advances its instance. */
  function AdvanceCurrent(s: MachineState, dt: real): (r: MachineState)
    requires MachineOk(s) && s.animationData.Some? && dt >= 0.0
    ensures MachineOk(r)
  {
    if s.currentStateName != "" then s.(current := Advance(s.current, s.currentStateName, dt, s.currentLoop))
    else s
  }

  /** `StateMachine::update`. */
  function AfterUpdate(s: MachineState, dt: real): (r: MachineState)
    requires MachineOk(s) && dt >= 0.0
    ensures MachineOk(r)
  {
    if s.animationData.None? then s
    else Calculated(Blended(AdvanceCurrent(s, dt), dt))
  }

  // ---------------------------------------------------------------------------
  // What changeState promises

  /** A clip the asset lacks is ignored: nothing changes. */
  lemma ChangeToUnknownIgnored(s: MachineState, newState: string, duration: real, loop: bool)
    requires MachineOk(s) && s.animationData.Some? && newState !in s.animationData.value.animations
    ensures AfterChange(s, newState, duration, loop) == s
  {
  }

  /** Asking again for the state the machine is steady in only updates the loop flag; its clock keeps running. */
  lemma ChangeToSameOnlySetsLoop(s: MachineState, newState: string, duration: real, loop: bool)
    requires MachineOk(s) && CanChange(s, newState)
    requires s.currentStateName == newState && !s.isBlending
    requires s.animationData.Some? ==> newState in s.animationData.value.animations
    ensures AfterChange(s, newState, duration, loop) == s.(currentLoop := loop)
    ensures AfterChange(s, newState, duration, loop).current.t == s.current.t
  {
  }

  /**
   * The first state: current, next and output all become the new clip at
   * time 0 (or its continued clock, when the instance already held it) and no
   * blend starts.
   */
  lemma FirstStateNoBlend(s: MachineState, newState: string, duration: real, loop: bool)
    requires MachineOk(s) && s.animationData.Some? && newState in s.animationData.value.animations
    requires s.currentStateName == "" && !s.isBlending && newState != ""
    ensures var r := AfterChange(s, newState, duration, loop);
      r.currentStateName == newState && r.nextStateName == newState && !r.isBlending &&
      r.currentLoop == loop && r.nextLoop == loop &&
      r.current == r.next == r.output && r.current.usingAnimation == newState &&
      r.current.t == (if s.current.usingAnimation == newState then s.current.t else 0.0)
  {
  }

  /**
   * A request during a blend first commits the blend target (instance, name and
   * loop flag become current), then starts a fresh blend to the new clip.
   */
  lemma ChangeDuringBlendCommits(s: MachineState, newState: string, duration: real, loop: bool)
    requires MachineOk(s) && s.animationData.Some? && newState in s.animationData.value.animations
    requires s.isBlending && s.nextStateName != ""
    ensures var r := AfterChange(s, newState, duration, loop);
      r.current == s.next && r.currentStateName == s.nextStateName && r.currentLoop == s.nextLoop &&
      r.nextStateName == newState && r.nextLoop == loop && r.next == s.next.(t := 0.0) &&
      r.isBlending && r.blendTime == 0.0 && r.blendDuration == duration && r.output == s.output
  {
  }

  /** From a steady state, a new clip starts a blend of the requested length with the target clock rewound. */
  lemma ChangeStartsBlend(s: MachineState, newState: string, duration: real, loop: bool)
    requires MachineOk(s) && s.animationData.Some? && newState in s.animationData.value.animations
    requires !s.isBlending && s.currentStateName != "" && s.currentStateName != newState
    ensures var r := AfterChange(s, newState, duration, loop);
      r.current == s.current && r.currentStateName == s.currentStateName && r.currentLoop == s.currentLoop &&
      r.nextStateName == newState && r.nextLoop == loop && r.next == s.next.(t := 0.0) &&
      r.isBlending && r.blendTime == 0.0 && r.blendDuration == duration && r.output == s.output
  {
  }

  /** After any request for a clip the asset has, `getState` reports that clip. */
  lemma {:induction false} ChangeStateReportsTarget(s: MachineState, newState: string, duration: real, loop: bool)
    requires MachineOk(s) && s.animationData.Some? && newState in s.animationData.value.animations
    ensures Reported(AfterChange(s, newState, duration, loop)) == newState
  {
    if s.currentStateName == newState && !s.isBlending {
      ChangeToSameOnlySetsLoop(s, newState, duration, loop);
    } else if s.isBlending && s.nextStateName == "" {
      // the committed current state is the empty clip name: the first-state branch runs
    } else if !s.isBlending && s.currentStateName == "" {
      FirstStateNoBlend(s, newState, duration, loop);
    }
  }

  // ---------------------------------------------------------------------------
  // What update promises

  /** Without an asset `update` does nothing. */
  lemma UpdateWithoutAsset(s: MachineState, dt: real)
    requires MachineOk(s) && dt >= 0.0 && s.animationData.None?
    ensures AfterUpdate(s, dt) == s
  {
  }

  /**
   * While blending the blend clock advances by dt; the blend ends exactly when
   * it reaches the blend length, and then the target's instance, name and loop
   * flag become current and the output is that instance.
   */
  lemma UpdateBlendClock(s: MachineState, dt: real)
    requires MachineOk(s) && dt >= 0.0 && s.animationData.Some? && s.isBlending
    ensures var r := AfterUpdate(s, dt);
      r.blendTime == s.blendTime + dt && (r.isBlending <==> s.blendTime + dt < s.blendDuration) &&
      r.nextStateName == s.nextStateName && r.nextLoop == s.nextLoop &&
      r.next == Advance(s.next, s.nextStateName, dt, s.nextLoop)
    ensures var r := AfterUpdate(s, dt);
      !r.isBlending ==>
        r.currentStateName == s.nextStateName && r.currentLoop == s.nextLoop &&
        r.current == r.next && r.output == r.current
  {
    var a := AdvanceCurrent(s, dt);
    assert a.isBlending && a.blendTime == s.blendTime && a.next == s.next;
    assert a.nextStateName == s.nextStateName && a.nextLoop == s.nextLoop;
    var b := Blended(a, dt);
    assert b == Tick(AdvanceNext(a, dt), dt);
    assert AfterUpdate(s, dt) == Calculated(b);
  }

  /** Out of a blend, the clock and names stay; only a playing current instance moves, and the output is a copy of it. */
  lemma UpdateSteady(s: MachineState, dt: real)
    requires MachineOk(s) && dt >= 0.0 && s.animationData.Some? && !s.isBlending
    ensures var r := AfterUpdate(s, dt);
      !r.isBlending && r.blendTime == s.blendTime && r.currentStateName == s.currentStateName &&
      r.currentLoop == s.currentLoop && r.next == s.next && r.output == r.current &&
      r.current == if s.currentStateName != "" then Advance(s.current, s.currentStateName, dt, s.currentLoop)
                   else s.current
  {
  }

  /**
   * A finished clip is rewound to 0 only when it loops; a one-shot clip stays
   * past its end, so it keeps reporting finished.
   */
  lemma AdvanceRewindsOnlyLooping(i: InstanceState, name: string, dt: real, loop: bool)
    requires Playable(i) && name in i.animation.value.animations && dt >= 0.0
    ensures var u := InstanceUpdate(i, name, dt);
      var r := Advance(i, name, dt, loop);
      (InstanceFinished(u) && loop ==> r.t == 0.0 && r == u.(t := 0.0)) &&
      (!(InstanceFinished(u) && loop) ==> r == u) &&
      (InstanceFinished(u) && !loop ==> InstanceFinished(r))
  {
  }

  /**
   * After `update` the output is the current instance when no blend is running;
   * during a blend its palette is the per-component blend of current and next
   * with weight blendTime / blendDuration, which then lies in [0, 1).
   */
  lemma UpdateOutput(s: MachineState, dt: real)
    requires MachineOk(s) && dt >= 0.0 && s.animationData.Some?
    ensures var r := AfterUpdate(s, dt);
      !r.isBlending ==> r.output == r.current
    ensures var r := AfterUpdate(s, dt);
      r.isBlending ==>
        0.0 <= r.blendTime < r.blendDuration && 0.0 <= r.blendTime / r.blendDuration < 1.0 &&
        r.output == s.output.(matrices := BlendPalette(r.current.matrices, r.next.matrices,
                                                        r.blendTime / r.blendDuration))
  {
    var r := AfterUpdate(s, dt);
    if r.isBlending {
      DivBelowOne(r.blendTime, r.blendDuration);
    }
  }

  lemma DivBelowOne(x: real, y: real)
    requires 0.0 <= x < y
    ensures 0.0 <= x / y < 1.0
  {
  }

  /** While blending the machine never reports its animation finished. */
  lemma BlendingNeverFinished(s: MachineState)
    requires MachineOk(s) && s.animationData.Some? && s.isBlending
    ensures !MachineFinished(s)
  {
  }

  // ---------------------------------------------------------------------------
  // The machine as an object

  /**
   * `StateMachine`. Its three `AnimationInstance` members are held by value, as
   * in the class they belong to: assigning one to another copies it, palettes
   * included.
   */
  class StateMachine {
    var outputInstance: InstanceState
    var animationData: Option<Animation>
    var currentInstance: InstanceState
    var nextInstance: InstanceState
    var currentStateName: string
    var nextStateName: string
    var isBlending: bool
    var blendTime: real
    var blendDuration: real
    var currentLoop: bool
    var nextLoop: bool

    ghost function Abstract(): MachineState
      reads this
    {
      MachineState(animationData, currentInstance, nextInstance, outputInstance,
                   currentStateName, nextStateName, isBlending, blendTime, blendDuration,
                   currentLoop, nextLoop)
    }

    ghost predicate Valid()
      reads this
    {
      MachineOk(Abstract())
    }

    /** `StateMachine()`: the member instances are default-constructed. */
    constructor ()
      ensures Valid() && Abstract() == Initial
    {
      outputInstance := FreshInstance();
      currentInstance := FreshInstance();
      nextInstance := FreshInstance();
      animationData := None;
      isBlending := false;
      blendTime := 0.0;
      blendDuration := DefaultBlend;
      currentLoop := true;
      nextLoop := true;
      currentStateName := "";
      nextStateName := "";
    }

    /** `StateMachine::init` with an asset: binds it and hands it to each instance, with no axis swap. */
    method Init(anim: Animation)
      requires Valid() && ValidAnimation(anim) && ClipsIn(Abstract(), anim)
      modifies this
      ensures Valid() && Abstract() == Bind(old(Abstract()), anim)
    {
      animationData := Some(anim);
      currentInstance := InstanceInit(currentInstance, anim, 0);
      nextInstance := InstanceInit(nextInstance, anim, 0);
      outputInstance := InstanceInit(outputInstance, anim, 0);
    }

    /** `StateMachine::changeState`. */
    method ChangeState(newState: string, duration: real, loop: bool)
      requires Valid() && CanChange(Abstract(), newState)
      modifies this
      ensures Valid() && Abstract() == AfterChange(old(Abstract()), newState, duration, loop)
    {
      if animationData.Some? && newState !in animationData.value.animations {
        return;
      }
      if currentStateName == newState && !isBlending {
        currentLoop := loop;
        return;
      }
      if isBlending {
        CommitBlend();
      }
      RetargetNext(newState, loop);
      if currentStateName == "" {
        EnterFirstState(newState, loop);
      } else {
        BeginBlend(duration);
      }
    }

    method CommitBlend()
      requires Valid() && isBlending
      modifies this
      ensures Valid() && Abstract() == Commit(old(Abstract()))
    {
      currentInstance := nextInstance;
      currentStateName := nextStateName;
      currentLoop := nextLoop;
    }

    method RetargetNext(newState: string, loop: bool)
      requires Valid() && animationData.Some? && newState in animationData.value.animations
      modifies this
      ensures Valid() && Abstract() == Retarget(old(Abstract()), newState, loop)
    {
      nextStateName := newState;
      nextLoop := loop;
      nextInstance := nextInstance.(t := 0.0);
    }

    method EnterFirstState(newState: string, loop: bool)
      requires Valid() && animationData.Some? && newState in animationData.value.animations
      modifies this
      ensures Valid() && Abstract() == EnterFirst(old(Abstract()), newState, loop)
    {
      PlayFirstState(newState, loop);
      nextInstance := currentInstance;
      outputInstance := currentInstance;
      isBlending := false;
    }

    method PlayFirstState(newState: string, loop: bool)
      requires Valid() && animationData.Some? && newState in animationData.value.animations
      modifies this
      ensures Valid() && Abstract() == PlayFrom(old(Abstract()), newState, loop)
    {
      currentStateName := newState;
      currentLoop := loop;
      currentInstance := InstanceUpdate(currentInstance, currentStateName, 0.0);
    }

    method BeginBlend(duration: real)
      requires Valid() && animationData.Some? && nextStateName in animationData.value.animations
      modifies this
      ensures Valid() && Abstract() == StartBlend(old(Abstract()), duration)
    {
      isBlending := true;
      blendTime := 0.0;
      blendDuration := duration;
    }

    /** `StateMachine::update`. */
    method Update(dt: real)
      requires Valid() && dt >= 0.0
      modifies this
      ensures Valid() && Abstract() == AfterUpdate(old(Abstract()), dt)
    {
      if animationData.None? {
        return;
      }
      if currentStateName != "" {
        AdvanceCurrentInstance(dt);
      }
      if isBlending {
        AdvanceBlend(dt);
      }
      CalculateMatrices();
    }

    method AdvanceCurrentInstance(dt: real)
      requires Valid() && animationData.Some? && currentStateName != "" && dt >= 0.0
      modifies this
      ensures Valid() && Abstract() == AdvanceCurrent(old(Abstract()), dt)
    {
      currentInstance := InstanceUpdate(currentInstance, currentStateName, dt);
      if InstanceFinished(currentInstance) {
        if currentLoop {
          currentInstance := currentInstance.(t := 0.0);
        }
      }
    }

    method AdvanceBlend(dt: real)
      requires Valid() && animationData.Some? && isBlending && dt >= 0.0
      modifies this
      ensures Valid() && Abstract() == Blended(old(Abstract()), dt)
    {
      AdvanceNextInstance(dt);
      TickBlend(dt);
    }

    method AdvanceNextInstance(dt: real)
      requires Valid() && animationData.Some? && isBlending && dt >= 0.0
      modifies this
      ensures Valid() && Abstract() == AdvanceNext(old(Abstract()), dt)
    {
      nextInstance := InstanceUpdate(nextInstance, nextStateName, dt);
      if InstanceFinished(nextInstance) {
        if nextLoop {
          nextInstance := nextInstance.(t := 0.0);
        }
      }
    }

    method TickBlend(dt: real)
      requires Valid() && isBlending && dt >= 0.0
      modifies this
      ensures Valid() && Abstract() == Tick(old(Abstract()), dt)
    {
      blendTime := blendTime + dt;
      if blendTime >= blendDuration {
        isBlending := false;
        currentStateName := nextStateName;
        currentLoop := nextLoop;
        currentInstance := nextInstance;
      }
    }

    /** `StateMachine::getState`. */
    function GetState(): (r: string)
      reads this
      ensures r == Reported(Abstract())
    {
      if isBlending then nextStateName else currentStateName
    }

    /** `StateMachine::isAnimationFinished`. */
    function IsAnimationFinished(): (r: bool)
      reads this
      requires Valid() && animationData.Some?
      requires isBlending || currentInstance.usingAnimation in animationData.value.animations
      ensures r == MachineFinished(Abstract())
    {
      if isBlending then false else InstanceFinished(currentInstance)
    }

    /** `StateMachine::calculateMatrices`; `update` calls it only once a running blend is short of its length. */
    method CalculateMatrices()
      requires Valid() && (isBlending ==> 0.0 <= blendTime < blendDuration)
      modifies this
      ensures Valid() && Abstract() == Calculated(old(Abstract()))
    {
      if !isBlending {
        outputInstance := currentInstance;
      } else {
        var w := blendTime / blendDuration;
        if w < 0.0 {
          w := 0.0;
        }
        if w > 1.0 {
          w := 1.0;
        }
        var blended := BlendInto(outputInstance.matrices, currentInstance.matrices, nextInstance.matrices, w);
        outputInstance := outputInstance.(matrices := blended);
      }
    }
  }

  /**
   * The nested loop of `calculateMatrices`: starting from the output palette,
   * every component of every entry is overwritten with its blend.
   */
  method BlendInto(out: seq<Matrix>, m1: seq<Matrix>, m2: seq<Matrix>, w: real) returns (r: seq<Matrix>)
    requires |out| == MaxBones && |m1| == MaxBones && |m2| == MaxBones
    ensures r == BlendPalette(m1, m2, w)
  {
    r := out;
    var i := 0;
    while i < MaxBones
      invariant 0 <= i <= MaxBones && |r| == MaxBones
      invariant forall j :: 0 <= j < i ==> r[j] == BlendMatrix(m1[j], m2[j], w)
    {
      var k := 0;
      while k < 16
        invariant 0 <= k <= 16 && |r| == MaxBones
        invariant forall j :: 0 <= j < i ==> r[j] == BlendMatrix(m1[j], m2[j], w)
        invariant forall c :: 0 <= c < k ==> r[i][c] == m1[i][c] * (1.0 - w) + m2[i][c] * w
      {
        r := r[i := r[i][k := m1[i][k] * (1.0 - w) + m2[i][k] * w]];
        k := k + 1;
      }
      assert forall c :: 0 <= c < 16 ==> r[i][c] == BlendMatrix(m1[i], m2[i], w)[c];
      assert r[i] == BlendMatrix(m1[i], m2[i], w);
      i := i + 1;
    }
    assert forall j :: 0 <= j < MaxBones ==> r[j] == BlendPalette(m1, m2, w)[j];
  }
}
