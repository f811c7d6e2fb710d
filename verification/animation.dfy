/**
 * Skeletal animation playback: the clip cursor of an animation sequence, the
 * bone-by-bone pose evaluation that fills a palette of up to 256 matrices, and
 * the per-instance state (`AnimationInstance`) that the state machine drives.
 * The asset itself (skeleton and clips) is loaded once and only read, so it is
 * a value here.
 */
module SkeletalAnimation {
  import opened Maths
  import opened Options

  /** Size of the matrix palettes; it matches the shader's bone limit. */
  const MaxBones := 256

  datatype Bone = Bone(name: string, offset: Matrix, parentIndex: int)

  datatype Skeleton = Skeleton(bones: seq<Bone>, globalInverse: Matrix)

  datatype AnimationFrame = AnimationFrame(positions: seq<Vec3>, rotations: seq<Quaternion>, scales: seq<Vec3>)

  /** A clip: key frames sampled at `ticksPerSecond`. */
  datatype AnimationSequence = AnimationSequence(frames: seq<AnimationFrame>, ticksPerSecond: real)

  /** A loaded animated asset: named clips over one skeleton. */
  datatype Animation = Animation(animations: map<string, AnimationSequence>, skeleton: Skeleton)

  /** Every parent index is -1 (a root) or names a bone; the palette holds every bone. */
  predicate ValidSkeleton(skel: Skeleton)
  {
    |skel.bones| <= MaxBones &&
    forall i :: 0 <= i < |skel.bones| ==> -1 <= skel.bones[i].parentIndex < |skel.bones|
  }

  /** A playable clip: a positive tick rate, at least one frame, and a key for every bone in every frame. */
  predicate CoversBones(clip: AnimationSequence, boneCount: nat)
  {
    clip.ticksPerSecond > 0.0 && |clip.frames| > 0 &&
    forall k :: 0 <= k < |clip.frames| ==>
      boneCount <= |clip.frames[k].positions| && boneCount <= |clip.frames[k].rotations| &&
      boneCount <= |clip.frames[k].scales|
  }

  /** The well-formedness the loader is trusted to deliver. */
  predicate ValidAnimation(a: Animation)
  {
    ValidSkeleton(a.skeleton) &&
    forall name :: name in a.animations ==> CoversBones(a.animations[name], |a.skeleton.bones|)
  }

  /** `Animation::hasAnimation`. */
  predicate HasAnimation(a: Animation, name: string)
  {
    name in a.animations
  }

  // ---------------------------------------------------------------------------
  // Bone lookup

  /** The index of the first bone called `name`, or -1 when there is none. */
  function BoneIndex(bones: seq<Bone>, name: string): (r: int)
    ensures -1 <= r < |bones|
    ensures r >= 0 ==> bones[r].name == name && forall j :: 0 <= j < r ==> bones[j].name != name
    ensures r == -1 <==> forall j :: 0 <= j < |bones| ==> bones[j].name != name
  {
    if |bones| == 0 then -1
    else if bones[0].name == name then 0
    else
      var rest := BoneIndex(bones[1..], name);
      if rest == -1 then -1 else rest + 1
  }

  /** `Skeleton::findBone`: a linear scan that stops at the first match. */
  method FindBone(skel: Skeleton, name: string) returns (r: int)
    ensures r == BoneIndex(skel.bones, name)
  {
    var i := 0;
    while i < |skel.bones|
      invariant 0 <= i <= |skel.bones|
      invariant forall j :: 0 <= j < i ==> skel.bones[j].name != name
    {
      if skel.bones[i].name == name {
        return i;
      }
      i := i + 1;
    }
    return -1;
  }

  // ---------------------------------------------------------------------------
  // Clip cursor

  /** `AnimationSequence::duration`: the clip length in seconds. */
  function Duration(clip: AnimationSequence): (d: real)
    requires clip.ticksPerSecond > 0.0
    ensures d * clip.ticksPerSecond == |clip.frames| as real
    ensures d >= 0.0
  {
    |clip.frames| as real / clip.ticksPerSecond
  }

  /**
   * `AnimationSequence::calcFrame`: the base frame and the interpolation
   * fraction for time t. The fraction is taken before the frame is clamped to
   * the last frame, so the cursor never wraps.
   */
  function CalcFrame(clip: AnimationSequence, t: real): (r: (int, real))
    requires |clip.frames| > 0
    ensures r.0 <= |clip.frames| - 1
    ensures 0.0 <= r.1 < 1.0
    ensures r.0 as real <= t * clip.ticksPerSecond
    ensures r.0 < |clip.frames| - 1 ==>
      t * clip.ticksPerSecond < r.0 as real + 1.0 && r.1 == t * clip.ticksPerSecond - r.0 as real
    ensures t * clip.ticksPerSecond >= 0.0 ==> r.0 >= 0
    ensures r.1 == t * clip.ticksPerSecond - (t * clip.ticksPerSecond).Floor as real
  {
    var x := t * clip.ticksPerSecond;
    var frame := x.Floor;
    (if frame < |clip.frames| - 1 then frame else |clip.frames| - 1, x - frame as real)
  }

  /**
   * `AnimationSequence::running`. The floored frame is compared with the
   * unsigned frame count, so a negative frame converts to a huge unsigned
   * value and the clip is not running.
   */
  predicate Running(clip: AnimationSequence, t: real)
  {
    var frame := (t * clip.ticksPerSecond).Floor;
    0 <= frame && frame < |clip.frames|
  }

  /** `AnimationInstance::animationFinished` for a clip at time t: strictly past the end. */
  predicate Finished(clip: AnimationSequence, t: real)
    requires clip.ticksPerSecond > 0.0
  {
    t > Duration(clip)
  }

  /** `AnimationSequence::nextFrame`: the following frame, saturating at the last one. */
  function NextFrame(clip: AnimationSequence, frame: int): (r: int)
    requires |clip.frames| > 0
    ensures r <= |clip.frames| - 1
    ensures 0 <= frame < |clip.frames| ==> frame <= r < |clip.frames|
    ensures frame < |clip.frames| - 1 ==> r == frame + 1
  {
    if frame + 1 < |clip.frames| - 1 then frame + 1 else |clip.frames| - 1
  }

  /** A clip runs exactly while t * ticksPerSecond lies in [0, frame count). */
  lemma RunningIff(clip: AnimationSequence, t: real)
    ensures Running(clip, t) <==> 0.0 <= t * clip.ticksPerSecond < |clip.frames| as real
  {
  }

  /**
   * Being finished and not running differ only at the exact end of the clip
   * and before its start: a finished clip is not running, and a clip that is
   * neither running nor finished sits at t == duration or at a negative time.
   */
  lemma FinishedVersusRunning(clip: AnimationSequence, t: real)
    requires clip.ticksPerSecond > 0.0
    ensures Finished(clip, t) ==> !Running(clip, t)
    ensures !Running(clip, t) && !Finished(clip, t) ==> t == Duration(clip) || t < 0.0
    ensures t < 0.0 ==> !Running(clip, t) && !Finished(clip, t)
  {
    var tps, n := clip.ticksPerSecond, |clip.frames| as real;
    var d := Duration(clip);
    RunningIff(clip, t);
    assert d * tps == n && d >= 0.0;
    if t > d {
      assert t * tps > d * tps by { MulStrict(d, t, tps); }
    } else if t < 0.0 {
      assert t * tps < 0.0 * tps by { MulStrict(t, 0.0, tps); }
    } else if t < d {
      assert 0.0 <= t * tps < d * tps by { MulStrict(t, d, tps); }
      assert Running(clip, t);
    }
  }

  lemma MulStrict(x: real, y: real, c: real)
    requires x < y && c > 0.0
    ensures x * c < y * c
  {
  }

  /** A clip that is not finished at t >= 0 samples a real frame. */
  lemma UnfinishedFrameInRange(clip: AnimationSequence, t: real)
    requires CoversBones(clip, 0) && t >= 0.0
    ensures 0 <= CalcFrame(clip, t).0 < |clip.frames|
    ensures 0 <= NextFrame(clip, CalcFrame(clip, t).0) < |clip.frames|
  {
  }

  // ---------------------------------------------------------------------------
  // Pose evaluation

  /** The skeleton, the clip and the frame index fit together. */
  predicate ClipFits(clip: AnimationSequence, skel: Skeleton, frame: int)
  {
    ValidSkeleton(skel) && CoversBones(clip, |skel.bones|) && 0 <= frame < |clip.frames|
  }

  /** The bone's local transform: interpolated scale * rotation * translation. */
  function LocalTransform(clip: AnimationSequence, skel: Skeleton, frame: int, fact: real, bone: int): Matrix
    requires ClipFits(clip, skel, frame) && 0 <= bone < |skel.bones|
  {
    var f0 := clip.frames[frame];
    var f1 := clip.frames[NextFrame(clip, frame)];
    var scale := Scaling(Lerp(f0.scales[bone], f1.scales[bone], fact));
    var rotation := ToMatrix(Slerp(f0.rotations[bone], f1.rotations[bone], fact));
    var translation := Translation(Lerp(f0.positions[bone], f1.positions[bone], fact));
    Mul(Mul(scale, rotation), translation)
  }

  /** A bone's global transform: its local transform, composed with the parent's palette entry unless it is a root. */
  function ParentCompose(local: Matrix, ms: seq<Matrix>, parent: int): Matrix
    requires parent < |ms|
  {
    if parent > -1 then Mul(local, ms[parent]) else local
  }

  /**
   * `AnimationSequence::interpolateBoneToGlobal`: a root bone (parent <= -1)
   * gets its local transform; any other bone gets local * matrices[parent],
   * whatever that palette entry currently holds.
   */
  function InterpolateBoneToGlobal(clip: AnimationSequence, ms: seq<Matrix>, frame: int, fact: real,
                                   skel: Skeleton, bone: int): Matrix
    requires ClipFits(clip, skel, frame) && |skel.bones| <= |ms| && 0 <= bone < |skel.bones|
  {
    ParentCompose(LocalTransform(clip, skel, frame, fact, bone), ms, skel.bones[bone].parentIndex)
  }

  /** The local transform of every bone at one sampling point. */
  function Locals(clip: AnimationSequence, skel: Skeleton, frame: int, fact: real): (r: seq<Matrix>)
    requires ClipFits(clip, skel, frame)
    ensures |r| == |skel.bones|
  {
    LocalsUpTo(clip, skel, frame, fact, |skel.bones|)
  }

  /** The local transforms of bones 0 .. n-1. */
  function LocalsUpTo(clip: AnimationSequence, skel: Skeleton, frame: int, fact: real, n: nat): (r: seq<Matrix>)
    requires ClipFits(clip, skel, frame) && n <= |skel.bones|
    ensures |r| == n
  {
    if n == 0 then [] else LocalsUpTo(clip, skel, frame, fact, n - 1) + [LocalTransform(clip, skel, frame, fact, n - 1)]
  }

  lemma {:induction false} LocalsUpToAt(clip: AnimationSequence, skel: Skeleton, frame: int, fact: real, n: nat, bone: int)
    requires ClipFits(clip, skel, frame) && n <= |skel.bones| && 0 <= bone < n
    ensures LocalsUpTo(clip, skel, frame, fact, n)[bone] == LocalTransform(clip, skel, frame, fact, bone)
  {
    if bone < n - 1 {
      LocalsUpToAt(clip, skel, frame, fact, n - 1, bone);
    }
  }

  lemma InterpolateIsCompose(clip: AnimationSequence, ms: seq<Matrix>, frame: int, fact: real, skel: Skeleton, bone: int)
    requires ClipFits(clip, skel, frame) && |skel.bones| <= |ms| && 0 <= bone < |skel.bones|
    ensures InterpolateBoneToGlobal(clip, ms, frame, fact, skel, bone) ==
            ParentCompose(Locals(clip, skel, frame, fact)[bone], ms, skel.bones[bone].parentIndex)
  {
    LocalsUpToAt(clip, skel, frame, fact, |skel.bones|, bone);
  }

  /** Bone links and local transforms agree in size, and the palette holds every bone. */
  predicate PoseInputs(skel: Skeleton, locals: seq<Matrix>, size: int)
  {
    ValidSkeleton(skel) && |locals| == |skel.bones| <= size
  }

  /**
   * The palette after the first n bones have been evaluated in index order,
   * each composing its local transform with the palette as it stands.
   */
  function PoseUpTo(skel: Skeleton, locals: seq<Matrix>, ms: seq<Matrix>, n: nat): (r: seq<Matrix>)
    requires PoseInputs(skel, locals, |ms|) && n <= |skel.bones|
    ensures |r| == |ms|
    decreases n
  {
    if n == 0 then ms
    else
      var p := PoseUpTo(skel, locals, ms, n - 1);
      p[n - 1 := ParentCompose(locals[n - 1], p, skel.bones[n - 1].parentIndex)]
  }

  /** `Animation::calcTransforms` as a value: bone i becomes offset_i * m_i * globalInverse * coordTransform. */
  function Transformed(a: Animation, ms: seq<Matrix>, coord: Matrix): (r: seq<Matrix>)
    requires |a.skeleton.bones| <= |ms|
    ensures |r| == |ms|
  {
    seq(|ms|, i requires 0 <= i < |ms| =>
      if i < |a.skeleton.bones|
      then Mul(Mul(Mul(a.skeleton.bones[i].offset, ms[i]), a.skeleton.globalInverse), coord)
      else ms[i])
  }

  /** The palette a not-yet-finished `update` leaves behind at clip time t. */
  function Sampled(a: Animation, clip: AnimationSequence, t: real, ms: seq<Matrix>, coord: Matrix): (r: seq<Matrix>)
    requires ValidSkeleton(a.skeleton) && CoversBones(clip, |a.skeleton.bones|) && t >= 0.0
    requires |a.skeleton.bones| <= |ms|
    ensures |r| == |ms|
  {
    var (frame, fact) := CalcFrame(clip, t);
    Transformed(a, PoseUpTo(a.skeleton, Locals(clip, a.skeleton, frame, fact), ms, |a.skeleton.bones|), coord)
  }

  /** `Animation::calcTransforms`: rewrites the first |bones| palette entries in place. */
  method CalcTransforms(a: Animation, matrices: array<Matrix>, coord: Matrix)
    requires |a.skeleton.bones| <= matrices.Length
    modifies matrices
    ensures matrices[..] == Transformed(a, old(matrices[..]), coord)
  {
    var i := 0;
    while i < |a.skeleton.bones|
      invariant 0 <= i <= |a.skeleton.bones|
      invariant forall k :: 0 <= k < matrices.Length ==>
        matrices[k] == if k < i then Transformed(a, old(matrices[..]), coord)[k] else old(matrices[k])
    {
      matrices[i] := Mul(Mul(Mul(a.skeleton.bones[i].offset, matrices[i]), a.skeleton.globalInverse), coord);
      i := i + 1;
    }
  }

  /** Evaluation never touches palette entries at or beyond the n-th. */
  lemma {:induction false} PoseUpToKeepsRest(skel: Skeleton, locals: seq<Matrix>, ms: seq<Matrix>, n: nat, k: int)
    requires PoseInputs(skel, locals, |ms|) && n <= |skel.bones|
    requires n <= k < |ms|
    ensures PoseUpTo(skel, locals, ms, n)[k] == ms[k]
    decreases n
  {
    if n > 0 {
      PoseUpToKeepsRest(skel, locals, ms, n - 1, k);
    }
  }

  /**
   * Bone j is evaluated exactly once, in index order: its final entry is computed
   * from the palette as it stood after bones 0 .. j-1 and is never overwritten.
   */
  lemma {:induction false} PoseUpToInOrder(skel: Skeleton, locals: seq<Matrix>, ms: seq<Matrix>, n: nat, j: int)
    requires PoseInputs(skel, locals, |ms|) && n <= |skel.bones|
    requires 0 <= j < n
    ensures PoseUpTo(skel, locals, ms, n)[j] ==
            ParentCompose(locals[j], PoseUpTo(skel, locals, ms, j), skel.bones[j].parentIndex)
    decreases n
  {
    if j < n - 1 {
      PoseUpToInOrder(skel, locals, ms, n - 1, j);
    }
  }

  // ---------------------------------------------------------------------------
  // Ancestor chains

  /** Following parent links from `id` reaches -1 within `steps` links. */
  predicate ReachesRoot(bones: seq<Bone>, id: int, steps: nat)
    decreases steps
  {
    id == -1 || (0 <= id < |bones| && steps > 0 && ReachesRoot(bones, bones[id].parentIndex, steps - 1))
  }

  /** The bone chain `findWorldMatrix` collects: `id`, its parent, ... up to the root. */
  function Ancestors(bones: seq<Bone>, id: int, steps: nat): (r: seq<int>)
    requires ReachesRoot(bones, id, steps)
    ensures |r| <= steps
    ensures id != -1 ==> |r| > 0 && r[0] == id
    ensures forall j :: 0 <= j < |r| ==> 0 <= r[j] < |bones| && ReachesRoot(bones, r[j], steps - j)
    ensures forall j :: 0 <= j < |r| ==>
      bones[r[j]].parentIndex == if j + 1 < |r| then r[j + 1] else -1
    decreases steps
  {
    if id == -1 then [] else [id] + Ancestors(bones, bones[id].parentIndex, steps - 1)
  }

  /** The model-space pose of a bone, defined along its ancestor chain alone. */
  function WorldPose(skel: Skeleton, locals: seq<Matrix>, id: int, steps: nat): Matrix
    requires |locals| == |skel.bones| && 0 <= id && ReachesRoot(skel.bones, id, steps)
    decreases steps
  {
    var parent := skel.bones[id].parentIndex;
    if parent > -1 then Mul(locals[id], WorldPose(skel, locals, parent, steps - 1)) else locals[id]
  }

  /** The world pose does not depend on how much slack the step bound has. */
  lemma {:induction false} WorldPoseSteps(skel: Skeleton, locals: seq<Matrix>, id: int, s1: nat, s2: nat)
    requires |locals| == |skel.bones| && 0 <= id
    requires ReachesRoot(skel.bones, id, s1) && ReachesRoot(skel.bones, id, s2)
    ensures WorldPose(skel, locals, id, s1) == WorldPose(skel, locals, id, s2)
    decreases s1
  {
    var parent := skel.bones[id].parentIndex;
    if parent > -1 {
      WorldPoseSteps(skel, locals, parent, s1 - 1, s2 - 1);
    }
  }

  /** Parents are stored before their children. */
  predicate ParentsFirst(skel: Skeleton)
  {
    forall i :: 0 <= i < |skel.bones| ==> skel.bones[i].parentIndex < i
  }

  lemma {:induction false} ParentsFirstReachesRoot(skel: Skeleton, id: int)
    requires ValidSkeleton(skel) && ParentsFirst(skel) && 0 <= id < |skel.bones|
    ensures ReachesRoot(skel.bones, id, id + 1)
    decreases id
  {
    var parent := skel.bones[id].parentIndex;
    if parent != -1 {
      ParentsFirstReachesRoot(skel, parent);
      ReachesRootMore(skel.bones, parent, parent + 1, id);
    }
  }

  lemma {:induction false} ReachesRootMore(bones: seq<Bone>, id: int, s1: nat, s2: nat)
    requires ReachesRoot(bones, id, s1) && s1 <= s2
    ensures ReachesRoot(bones, id, s2)
    decreases s1
  {
    if id != -1 {
      ReachesRootMore(bones, bones[id].parentIndex, s1 - 1, s2 - 1);
    }
  }

  /**
   * When parents precede their children, the in-place evaluation `update`
   * performs yields every bone's world pose, whatever the palette held before:
   * the same matrix `findWorldMatrix` computes along the bone's chain.
   */
  lemma {:induction false} PoseUpToIsWorldPose(skel: Skeleton, locals: seq<Matrix>, ms: seq<Matrix>, n: nat, j: int)
    requires PoseInputs(skel, locals, |ms|) && ParentsFirst(skel) && n <= |skel.bones|
    requires 0 <= j < n
    ensures ReachesRoot(skel.bones, j, |skel.bones|)
    ensures PoseUpTo(skel, locals, ms, n)[j] == WorldPose(skel, locals, j, |skel.bones|)
    decreases j
  {
    ParentsFirstReachesRoot(skel, j);
    ReachesRootMore(skel.bones, j, j + 1, |skel.bones|);
    PoseUpToInOrder(skel, locals, ms, n, j);
    var parent := skel.bones[j].parentIndex;
    if parent > -1 {
      PoseUpToIsWorldPose(skel, locals, ms, j, parent);
      WorldPoseSteps(skel, locals, j, |skel.bones|, j + 1);
      WorldPoseSteps(skel, locals, parent, |skel.bones|, j);
    }
  }

  // ---------------------------------------------------------------------------
  // Animation instances

  /** Everything an `AnimationInstance` holds, as a value. */
  datatype InstanceState = InstanceState(animation: Option<Animation>, usingAnimation: string, t: real,
                                         matrices: seq<Matrix>, matricesPose: seq<Matrix>,
                                         coordTransform: Matrix)

  /** An instance bound to a well-formed asset, with full palettes and a non-negative clock. */
  predicate Playable(s: InstanceState)
  {
    s.animation.Some? && ValidAnimation(s.animation.value) &&
    |s.matrices| == MaxBones && |s.matricesPose| == MaxBones && s.t >= 0.0
  }

  /** The clip an instance is playing is one the asset has. */
  predicate OnClip(s: InstanceState)
  {
    Playable(s) && s.usingAnimation in s.animation.value.animations
  }

  /** `AnimationInstance::animationFinished` on a value. */
  predicate InstanceFinished(s: InstanceState)
    requires OnClip(s)
  {
    Finished(s.animation.value.animations[s.usingAnimation], s.t)
  }

  /** The local bone transforms at the instance's current clip time. */
  function InstanceLocals(s: InstanceState): (r: seq<Matrix>)
    requires OnClip(s)
    ensures |r| == |s.animation.value.skeleton.bones|
  {
    var clip := s.animation.value.animations[s.usingAnimation];
    var (frame, fact) := CalcFrame(clip, s.t);
    Locals(clip, s.animation.value.skeleton, frame, fact)
  }

  /** A fresh `AnimationInstance`: no asset, no clip, clock at zero, identity palettes and coordinate change. */
  function FreshInstance(): (r: InstanceState)
    ensures |r.matrices| == MaxBones && |r.matricesPose| == MaxBones
  {
    InstanceState(None, "", 0.0, seq(MaxBones, _ => Identity), seq(MaxBones, _ => Identity), Identity)
  }

  /** The coordinate change `init` installs for assets authored Y-up: x stays, y and z swap with a sign. */
  const YZXTransform: Matrix :=
    [1.0, 0.0, 0.0, 0.0, 0.0, 0.0, -1.0, 0.0, 0.0, 1.0, 0.0, 0.0, 0.0, 0.0, 0.0, 1.0]

  /** `AnimationInstance::init` on a value: binds the asset; fromYZX == 1 installs the axis swap. */
  function InstanceInit(s: InstanceState, anim: Animation, fromYZX: int): InstanceState
  {
    s.(animation := Some(anim), coordTransform := if fromYZX == 1 then YZXTransform else s.coordTransform)
  }

  /** `AnimationInstance::update` on a value. */
  function InstanceUpdate(s: InstanceState, name: string, dt: real): (r: InstanceState)
    requires Playable(s) && name in s.animation.value.animations
    requires name == s.usingAnimation ==> s.t + dt >= 0.0
    ensures OnClip(r)
  {
    var a := s.animation.value;
    var clip := a.animations[name];
    var t := if name == s.usingAnimation then s.t + dt else 0.0;
    if Finished(clip, t) then s.(usingAnimation := name, t := t)
    else s.(usingAnimation := name, t := t, matrices := Sampled(a, clip, t, s.matrices, s.coordTransform))
  }

  /**
   * What `update` does to the palette: nothing once the clip is finished;
   * otherwise entries past the last bone keep their value, and bone k becomes
   * offset_k * G_k * globalInverse * coordTransform, where G_k composes the
   * bone's local transform with its parent's entry as the palette stood after
   * bones 0 .. k-1 were evaluated.
   */
  lemma {:induction false} UpdatePalette(s: InstanceState, name: string, dt: real, k: int)
    requires Playable(s) && name in s.animation.value.animations
    requires name == s.usingAnimation ==> s.t + dt >= 0.0
    requires 0 <= k < MaxBones
    ensures var r := InstanceUpdate(s, name, dt);
      r.usingAnimation == name && r.t == (if name == s.usingAnimation then s.t + dt else 0.0) &&
      r.animation == s.animation && r.matricesPose == s.matricesPose && r.coordTransform == s.coordTransform
    ensures var r := InstanceUpdate(s, name, dt);
      InstanceFinished(r) ==> r.matrices == s.matrices
    ensures var r := InstanceUpdate(s, name, dt);
      k >= |s.animation.value.skeleton.bones| ==> r.matrices[k] == s.matrices[k]
    ensures var r := InstanceUpdate(s, name, dt);
      var skel := s.animation.value.skeleton;
      !InstanceFinished(r) && k < |skel.bones| ==>
        r.matrices[k] ==
          Mul(Mul(Mul(skel.bones[k].offset,
                      ParentCompose(InstanceLocals(r)[k],
                                    PoseUpTo(skel, InstanceLocals(r), s.matrices, k),
                                    skel.bones[k].parentIndex)),
                  skel.globalInverse), r.coordTransform)
  {
    var r := InstanceUpdate(s, name, dt);
    var skel := s.animation.value.skeleton;
    if !InstanceFinished(r) {
      var locals := InstanceLocals(r);
      if k < |skel.bones| {
        PoseUpToInOrder(skel, locals, s.matrices, |skel.bones|, k);
      } else {
        PoseUpToKeepsRest(skel, locals, s.matrices, |skel.bones|, k);
      }
    }
  }

  /**
   * With parents stored before children, an update that is not finished
   * leaves every bone at its world pose (transformed for the shader), so the
   * previous palette has no influence on the result.
   */
  lemma UpdateMatchesWorldPose(s: InstanceState, name: string, dt: real, k: int)
    requires Playable(s) && name in s.animation.value.animations
    requires name == s.usingAnimation ==> s.t + dt >= 0.0
    requires ParentsFirst(s.animation.value.skeleton)
    requires 0 <= k < |s.animation.value.skeleton.bones|
    requires !InstanceFinished(InstanceUpdate(s, name, dt))
    ensures ReachesRoot(s.animation.value.skeleton.bones, k, |s.animation.value.skeleton.bones|)
    ensures var r := InstanceUpdate(s, name, dt);
      var skel := s.animation.value.skeleton;
      r.matrices[k] ==
        Mul(Mul(Mul(skel.bones[k].offset, WorldPose(skel, InstanceLocals(r), k, |skel.bones|)),
                skel.globalInverse), r.coordTransform)
  {
    var r := InstanceUpdate(s, name, dt);
    var skel := s.animation.value.skeleton;
    PoseUpToIsWorldPose(skel, InstanceLocals(r), s.matrices, |skel.bones|, k);
  }

  /** A bone whose parent chain reaches a root; `findWorldMatrix` loops forever on any other. */
  predicate ChainEnds(a: Animation, boneName: string)
  {
    var id := BoneIndex(a.skeleton.bones, boneName);
    id >= 0 && ReachesRoot(a.skeleton.bones, id, |a.skeleton.bones|)
  }

  /** The first loop of `findWorldMatrix`: follow parent links from the bone until -1. */
  method BoneChain(bones: seq<Bone>, boneID: int) returns (chain: seq<int>)
    requires ReachesRoot(bones, boneID, |bones|)
    ensures chain == Ancestors(bones, boneID, |bones|)
  {
    chain := [];
    var id := boneID;
    ghost var steps: nat := |bones|;
    while id != -1
      invariant ReachesRoot(bones, id, steps)
      invariant chain + Ancestors(bones, id, steps) == Ancestors(bones, boneID, |bones|)
      decreases steps
    {
      chain := chain + [id];
      id := bones[id].parentIndex;
      steps := steps - 1;
    }
  }

  /** The chain's entries are bones, and the palette holds every bone. */
  predicate ChainInputs(skel: Skeleton, locals: seq<Matrix>, chain: seq<int>, size: int)
  {
    PoseInputs(skel, locals, size) && forall j :: 0 <= j < |chain| ==> 0 <= chain[j] < |skel.bones|
  }

  /**
   * The palette after the last m entries of the chain have been evaluated,
   * from the far (root) end towards the front, each composing its local
   * transform with the palette as it stands.
   */
  function ChainFrom(skel: Skeleton, locals: seq<Matrix>, chain: seq<int>, ms: seq<Matrix>, m: nat): (r: seq<Matrix>)
    requires ChainInputs(skel, locals, chain, |ms|) && m <= |chain|
    ensures |r| == |ms|
    decreases m
  {
    if m == 0 then ms
    else
      var p := ChainFrom(skel, locals, chain, ms, m - 1);
      var c := chain[|chain| - m];
      p[c := ParentCompose(locals[c], p, skel.bones[c].parentIndex)]
  }

  /** Chain evaluation writes only chain entries. */
  lemma {:induction false} ChainFromOffChain(skel: Skeleton, locals: seq<Matrix>, chain: seq<int>, ms: seq<Matrix>, m: nat, k: int)
    requires ChainInputs(skel, locals, chain, |ms|) && m <= |chain|
    requires 0 <= k < |ms| && k !in chain
    ensures ChainFrom(skel, locals, chain, ms, m)[k] == ms[k]
    decreases m
  {
    if m > 0 {
      ChainFromOffChain(skel, locals, chain, ms, m - 1, k);
    }
  }

  /** Each entry of `chain` is a bone reaching a root, the parent of the one before it; the last is a root. */
  predicate ChainLinks(bones: seq<Bone>, chain: seq<int>)
  {
    forall j {:trigger chain[j]} :: 0 <= j < |chain| ==>
      0 <= chain[j] < |bones| && ReachesRoot(bones, chain[j], |bones|) &&
      bones[chain[j]].parentIndex == if j + 1 < |chain| then chain[j + 1] else -1
  }

  /** The chain `findWorldMatrix` collects is linked. */
  lemma AncestorsLinked(bones: seq<Bone>, id: int)
    requires ReachesRoot(bones, id, |bones|)
    ensures ChainLinks(bones, Ancestors(bones, id, |bones|))
  {
    var chain := Ancestors(bones, id, |bones|);
    forall j | 0 <= j < |chain|
      ensures ReachesRoot(bones, chain[j], |bones|)
    {
      ReachesRootMore(bones, chain[j], |bones| - j, |bones|);
    }
  }

  /**
   * Evaluating a linked chain root first leaves each evaluated bone at its
   * world pose.
   */
  lemma {:induction false} ChainFromIsWorldPose(skel: Skeleton, locals: seq<Matrix>, chain: seq<int>, ms: seq<Matrix>,
                                                m: nat, j: int)
    requires PoseInputs(skel, locals, |ms|) && ChainLinks(skel.bones, chain)
    requires m <= |chain| && |chain| - m <= j < |chain|
    ensures ChainInputs(skel, locals, chain, |ms|)
    ensures ChainFrom(skel, locals, chain, ms, m)[chain[j]] == WorldPose(skel, locals, chain[j], |skel.bones|)
    decreases m, j - (|chain| - m)
  {
    var i := |chain| - m;
    var c := chain[i];
    if j == i {
      var parent := skel.bones[c].parentIndex;
      if parent > -1 {
        assert parent == chain[i + 1];
        ChainFromIsWorldPose(skel, locals, chain, ms, m - 1, i + 1);
        WorldPoseSteps(skel, locals, parent, |skel.bones| - 1, |skel.bones|);
      }
    } else if chain[j] == c {
      ChainFromIsWorldPose(skel, locals, chain, ms, m, i);
    } else {
      ChainFromIsWorldPose(skel, locals, chain, ms, m - 1, j);
    }
  }

  /**
   * Evaluating a bone's whole ancestor chain root first leaves the bone at its
   * world pose, whatever the palette held before.
   */
  lemma ChainEvaluatesWorldPose(skel: Skeleton, locals: seq<Matrix>, id: int, ms: seq<Matrix>)
    requires PoseInputs(skel, locals, |ms|) && 0 <= id && ReachesRoot(skel.bones, id, |skel.bones|)
    ensures ChainInputs(skel, locals, Ancestors(skel.bones, id, |skel.bones|), |ms|)
    ensures var chain := Ancestors(skel.bones, id, |skel.bones|);
      ChainFrom(skel, locals, chain, ms, |chain|)[id] == WorldPose(skel, locals, id, |skel.bones|)
  {
    AncestorsLinked(skel.bones, id);
    var chain := Ancestors(skel.bones, id, |skel.bones|);
    ChainFromIsWorldPose(skel, locals, chain, ms, |chain|, 0);
  }

  class AnimationInstance {
    var animation: Option<Animation>
    var usingAnimation: string
    var t: real
    var matrices: array<Matrix>
    var matricesPose: array<Matrix>
    var coordTransform: Matrix

    ghost predicate Valid()
      reads this
    {
      matrices.Length == MaxBones && matricesPose.Length == MaxBones && matrices != matricesPose &&
      t >= 0.0 && (animation.Some? ==> ValidAnimation(animation.value))
    }

    ghost function State(): InstanceState
      reads this, matrices, matricesPose
    {
      InstanceState(animation, usingAnimation, t, matrices[..], matricesPose[..], coordTransform)
    }

    /** A fresh instance: no asset yet, identity palettes and coordinate transform, clock at zero. */
    constructor ()
      ensures Valid() && fresh(matrices) && fresh(matricesPose)
      ensures State() == FreshInstance()
    {
      animation := None;
      usingAnimation := "";
      t := 0.0;
      matrices := new Matrix[MaxBones](_ => Identity);
      matricesPose := new Matrix[MaxBones](_ => Identity);
      coordTransform := Identity;
    }

    /** `AnimationInstance::init`: binds the asset; fromYZX == 1 installs the axis swap. */
    method Init(anim: Animation, fromYZX: int)
      requires Valid() && ValidAnimation(anim)
      modifies this
      ensures Valid() && matrices == old(matrices) && matricesPose == old(matricesPose)
      ensures State() == InstanceInit(old(State()), anim, fromYZX)
    {
      animation := Some(anim);
      if fromYZX == 1 {
        coordTransform := YZXTransform;
      }
    }

    /** The local bone transforms at the current clip time; it depends on the fields alone, not on the palettes. */
    ghost function CurrentLocals(): (r: seq<Matrix>)
      reads this
      requires Valid() && animation.Some? && usingAnimation in animation.value.animations
      ensures |r| == |animation.value.skeleton.bones|
    {
      var clip := animation.value.animations[usingAnimation];
      var (frame, fact) := CalcFrame(clip, t);
      Locals(clip, animation.value.skeleton, frame, fact)
    }

    /** `AnimationInstance::animationFinished`: strictly past the clip's duration. */
    predicate AnimationFinished()
      reads this
      requires Valid() && animation.Some? && usingAnimation in animation.value.animations
    {
      Finished(animation.value.animations[usingAnimation], t)
    }

    /** `AnimationInstance::resetAnimationTime`. */
    method ResetAnimationTime()
      requires Valid()
      modifies this`t
      ensures Valid() && State() == old(State()).(t := 0.0)
    {
      t := 0.0;
    }

    /**
     * `AnimationInstance::update`: the same clip advances the clock by dt, a
     * different one switches to it and restarts at 0; a finished clip leaves
     * the palette alone, otherwise every bone is evaluated in index order.
     */
    method Update(name: string, dt: real)
      requires Valid() && animation.Some? && name in animation.value.animations
      requires name == usingAnimation ==> t + dt >= 0.0
      modifies this, matrices
      ensures Valid() && matrices == old(matrices) && matricesPose == old(matricesPose)
      ensures usingAnimation == name
      ensures t == if name == old(usingAnimation) then old(t) + dt else 0.0
      ensures State() == InstanceUpdate(old(State()), name, dt)
    {
      if name == usingAnimation {
        t := t + dt;
      } else {
        usingAnimation := name;
        t := 0.0;
      }
      if AnimationFinished() {
        return;
      }
      var a := animation.value;
      var clip := a.animations[name];
      var cursor := CalcFrame(clip, t);
      EvaluateBones(a, clip, cursor.0, cursor.1);
      CalcTransforms(a, matrices, coordTransform);
    }

    /** The bone loop of `update`: bone i, in index order, gets `interpolateBoneToGlobal` of the palette as it stands. */
    method EvaluateBones(a: Animation, clip: AnimationSequence, frame: int, fact: real)
      requires ValidSkeleton(a.skeleton) && ClipFits(clip, a.skeleton, frame) && matrices.Length == MaxBones
      modifies matrices
      ensures matrices[..] == PoseUpTo(a.skeleton, Locals(clip, a.skeleton, frame, fact), old(matrices[..]), |a.skeleton.bones|)
    {
      ghost var locals := Locals(clip, a.skeleton, frame, fact);
      var i := 0;
      while i < |a.skeleton.bones|
        invariant 0 <= i <= |a.skeleton.bones|
        invariant matrices[..] == PoseUpTo(a.skeleton, locals, old(matrices[..]), i)
      {
        InterpolateIsCompose(clip, matrices[..], frame, fact, a.skeleton, i);
        matrices[i] := InterpolateBoneToGlobal(clip, matrices[..], frame, fact, a.skeleton, i);
        i := i + 1;
      }
    }

    /**
     * `AnimationInstance::findWorldMatrix`: collects the bone's ancestor chain,
     * evaluates it root first into `matricesPose` (nothing else is written) and
     * returns the bone's world pose times the coordinate transform.
     */
    method FindWorldMatrix(boneName: string) returns (r: Matrix)
      requires Valid() && animation.Some? && usingAnimation in animation.value.animations
      requires ChainEnds(animation.value, boneName)
      modifies matricesPose
      ensures var bones := animation.value.skeleton.bones;
        var id := BoneIndex(bones, boneName);
        r == Mul(WorldPose(animation.value.skeleton, CurrentLocals(), id, |bones|), coordTransform)
      ensures var bones := animation.value.skeleton.bones;
        matricesPose[..] == ChainFrom(animation.value.skeleton, CurrentLocals(),
                                      Ancestors(bones, BoneIndex(bones, boneName), |bones|),
                                      old(matricesPose[..]), |Ancestors(bones, BoneIndex(bones, boneName), |bones|)|)
    {
      var a := animation.value;
      var skel := a.skeleton;
      var boneID := FindBone(skel, boneName);
      var chain := BoneChain(skel.bones, boneID);
      var clip := a.animations[usingAnimation];
      var cursor := CalcFrame(clip, t);
      UnfinishedFrameInRange(clip, t);
      EvaluateChain(a, clip, cursor.0, cursor.1, chain);
      ChainEvaluatesWorldPose(skel, CurrentLocals(), boneID, old(matricesPose[..]));
      assert matricesPose[boneID] == matricesPose[..][boneID];
      r := Mul(matricesPose[boneID], coordTransform);
    }

    /** The second loop of `findWorldMatrix`: the chain is evaluated from its root end back to the bone. */
    method EvaluateChain(a: Animation, clip: AnimationSequence, frame: int, fact: real, chain: seq<int>)
      requires ClipFits(clip, a.skeleton, frame) && matricesPose.Length == MaxBones
      requires forall j :: 0 <= j < |chain| ==> 0 <= chain[j] < |a.skeleton.bones|
      modifies matricesPose
      ensures matricesPose[..] == ChainFrom(a.skeleton, Locals(clip, a.skeleton, frame, fact), chain, old(matricesPose[..]), |chain|)
    {
      ghost var locals := Locals(clip, a.skeleton, frame, fact);
      var i := |chain| - 1;
      while i > -1
        invariant -1 <= i < |chain|
        invariant matricesPose[..] == ChainFrom(a.skeleton, locals, chain, old(matricesPose[..]), |chain| - 1 - i)
      {
        var c := chain[i];
        InterpolateIsCompose(clip, matricesPose[..], frame, fact, a.skeleton, c);
        matricesPose[c] := InterpolateBoneToGlobal(clip, matricesPose[..], frame, fact, a.skeleton, c);
        i := i - 1;
      }
    }
  }
}
