/**
 * The per-frame decisions of the Pikachu view: the Idle/Walking/Jump
 * selector with its `isJumping` ref, the glow intensity that drives the
 * static effect, the turn and the move speed, and the grass blades that
 * shrink under the player.
 *
 * `currentAnim` is React state: a `setCurrentAnim` call is seen from the
 * next frame on, so within one frame every read sees the value the frame
 * started with. `isJumping` is a ref and is seen at once. The timer that
 * ends a jump is the explicit `JumpEnded` event.
 */
module PikachuSim {
  import opened Values
  import opened GameInput

  datatype Anim = Idle | Walking | Jump

  /** The rendered `currentAnim` together with the `isJumping` ref. */
  datatype Pose = Pose(anim: Anim, jumping: bool)

  /** `useState('Idle')`, `useRef(false)`. */
  const Start: Pose := Pose(Idle, false)

  /** The ref is set exactly while the rendered animation is `Jump`. */
  predicate Consistent(p: Pose)
  {
    p.jumping <==> p.anim == Jump
  }

  /** Section A: a jump starts when the right stick is pushed up past half way and no jump is running. */
  predicate StartsJump(p: Pose, i: Input)
  {
    i.j2y < -0.5 && !p.jumping
  }

  /** The animation section B asks for when it runs. */
  function Wanted(i: Input): (a: Anim)
    ensures a != Jump
    ensures a == Walking <==> Moving(i)
  {
    if Abs(i.j1x) > 0.1 || Abs(i.j1y) > 0.1 then Walking else Idle
  }

  /** Sections A and B of one frame: the pose the next frame renders with. */
  function Select(p: Pose, i: Input): (r: Pose)
    ensures r.jumping <==> p.jumping || i.j2y < -0.5
    ensures p.jumping ==> r == p
    ensures StartsJump(p, i) ==> r.anim == Jump
    ensures !r.jumping ==> (r.anim == Walking <==> Moving(i)) && (r.anim == Idle <==> !Moving(i))
    ensures Consistent(p) ==> Consistent(r)
  {
    if StartsJump(p, i) then Pose(Jump, true)
    else if p.jumping then p
    else Pose(Wanted(i), false)
  }

  /**
   * Whether the frame calls `setCurrentAnim`: always when a jump starts, and
   * in section B only when the wanted animation differs from the rendered one.
   */
  predicate AnimSet(p: Pose, i: Input)
  {
    StartsJump(p, i) || (!p.jumping && p.anim != Wanted(i))
  }

  /** With a consistent pose, the state is set exactly when the selection changes it. */
  lemma AnimSetIffChanged(p: Pose, i: Input)
    requires Consistent(p)
    ensures AnimSet(p, i) <==> Select(p, i).anim != p.anim
  {
  }

  /** A frame with the stick state `i`, or the end-of-jump timer. */
  datatype Event = Tick(i: Input) | JumpEnded

  /** The timer callback: `isJumping.current = false; setCurrentAnim('Idle')`. */
  function Step(p: Pose, ev: Event): Pose
  {
    match ev
    case Tick(i) => Select(p, i)
    case JumpEnded => Pose(Idle, false)
  }

  function Run(p: Pose, evs: seq<Event>): Pose
    decreases |evs|
  {
    if evs == [] then p else Run(Step(p, evs[0]), evs[1..])
  }

  /** Appending one event to a history applies one more step. */
  lemma {:induction false} RunSnoc(p: Pose, evs: seq<Event>, ev: Event)
    ensures Run(p, evs + [ev]) == Step(Run(p, evs), ev)
    decreases |evs|
  {
    if evs == [] {
      assert evs + [ev] == [ev];
    } else {
      assert (evs + [ev])[1..] == evs[1..] + [ev];
      RunSnoc(Step(p, evs[0]), evs[1..], ev);
    }
  }

  /** From the initial pose, the ref and the rendered animation never disagree. */
  lemma {:induction false} RunConsistent(p: Pose, evs: seq<Event>)
    requires Consistent(p)
    ensures Consistent(Run(p, evs))
    decreases |evs|
  {
    if evs != [] {
      RunConsistent(Step(p, evs[0]), evs[1..]);
    }
  }

  predicate AllTicks(evs: seq<Event>)
  {
    forall k :: 0 <= k < |evs| ==> evs[k].Tick?
  }

  /** While a jump runs, no frame changes the pose, whatever the sticks do; only the timer ends it. */
  lemma {:induction false} JumpHolds(p: Pose, evs: seq<Event>)
    requires p.jumping
    requires AllTicks(evs)
    ensures Run(p, evs) == p
    decreases |evs|
  {
    if evs != [] {
      assert evs[0].Tick?;
      JumpHolds(Step(p, evs[0]), evs[1..]);
    }
  }

  /** The end-of-jump timer always leaves the player idle and able to jump again. */
  lemma JumpEndedResets(p: Pose, evs: seq<Event>)
    ensures Run(p, evs + [JumpEnded]) == Start
  {
    RunSnoc(p, evs, JumpEnded);
  }

  /** A jump is only ever entered through section A: some frame had the right stick up past half way. */
  lemma {:induction false} JumpNeedsStick(p: Pose, evs: seq<Event>)
    requires !p.jumping
    requires Run(p, evs).jumping
    ensures exists k :: 0 <= k < |evs| && evs[k].Tick? && evs[k].i.j2y < -0.5
    decreases |evs|
  {
    var q := Step(p, evs[0]);
    if q.jumping {
      assert evs[0].Tick? && evs[0].i.j2y < -0.5;
    } else {
      JumpNeedsStick(q, evs[1..]);
      var k :| 0 <= k < |evs[1..]| && evs[1..][k].Tick? && evs[1..][k].i.j2y < -0.5;
      assert evs[k + 1] == evs[1..][k];
    }
  }

  /** Outside a jump, the animation after a frame is Walking exactly when the left stick is past 0.1 on either axis. */
  lemma WalkingIffMoving(p: Pose, evs: seq<Event>, i: Input)
    requires !Run(p, evs).jumping && i.j2y >= -0.5
    ensures Run(p, evs + [Tick(i)]).anim == Walking <==> Moving(i)
    ensures Run(p, evs + [Tick(i)]).anim == Idle <==> !Moving(i)
  {
    RunSnoc(p, evs, Tick(i));
  }

  /** Section D: `gameData.e || gameData.tof1 > 40` (`null > 40` is false). */
  predicate IsPressed(i: Input)
  {
    i.e || ToNumber(i.tof1) > 40.0
  }

  /** `isPressed ? (gameData.tof1 / 200 || 1) : 0`: a zero quotient (0 or `null`) falls back to 1. */
  function TargetIntensity(i: Input): (t: real)
    ensures t == 0.0 <==> !IsPressed(i)
    ensures ToNumber(i.tof1) > 40.0 ==> t == ToNumber(i.tof1) / 200.0 && t > 0.2
    ensures i.e && ToNumber(i.tof1) == 0.0 ==> t == 1.0
    ensures IsPressed(i) && ToNumber(i.tof1) != 0.0 ==> t == ToNumber(i.tof1) / 200.0
    ensures IsPressed(i) && ToNumber(i.tof1) == 0.0 ==> t == 1.0
  {
    if !IsPressed(i) then 0.0
    else if ToNumber(i.tof1) / 200.0 != 0.0 then ToNumber(i.tof1) / 200.0
    else 1.0
  }

  /** The emissive intensity the materials ease towards, and the glow colour. */
  function EmissiveTarget(i: Input): (t: real)
    ensures t == 0.0 <==> !IsPressed(i)
    ensures ToNumber(i.tof1) > 40.0 ==> t == ToNumber(i.tof1) / 100.0
    ensures IsPressed(i) && ToNumber(i.tof1) != 0.0 ==> t == ToNumber(i.tof1) / 100.0
    ensures IsPressed(i) && ToNumber(i.tof1) == 0.0 ==> t == 2.0
  {
    TargetIntensity(i) * 2.0
  }

  function GlowColour(i: Input): (c: string)
    ensures c == "#ffff00" <==> IsPressed(i)
    ensures c == "#ffff00" <==> EmissiveTarget(i) != 0.0
    ensures c == "#000000" <==> EmissiveTarget(i) == 0.0
  {
    if IsPressed(i) then "#ffff00" else "#000000"
  }

  /** `staticIntensity` follows the target only once it is more than 0.05 away. */
  function StaticNext(current: real, target: real): (r: real)
    ensures Abs(r - target) <= 0.05
    ensures r == current || r == target
    ensures Abs(current - target) <= 0.05 ==> r == current
  {
    if Abs(current - target) > 0.05 then target else current
  }

  /** `{staticIntensity > 0.1 && <LightningStatic ... />}`. */
  predicate LightningShown(staticIntensity: real)
  {
    staticIntensity > 0.1
  }

  /** One frame after the button and the sensor are released, the lightning is gone. */
  lemma LightningOffWhenReleased(s: real, i: Input)
    requires !IsPressed(i)
    ensures !LightningShown(StaticNext(s, TargetIntensity(i)))
  {
  }

  /**
   * With the button held, a weak sensor reading (0 < tof1 <= 10) is not
   * replaced by the fallback 1: the target is tof1/200 <= 0.05, so one frame
   * later the lightning is hidden, even though the view counts as pressed.
   */
  lemma WeakSensorDimsButtonGlow(s: real, i: Input)
    requires i.e && 0.0 < ToNumber(i.tof1) <= 10.0
    ensures IsPressed(i) && 0.0 < TargetIntensity(i) <= 0.05
    ensures !LightningShown(StaticNext(s, TargetIntensity(i)))
  {
  }

  /** One frame of a sensor press beyond 40 shows the lightning. */
  lemma LightningOnWhenSensorPressed(s: real, i: Input)
    requires ToNumber(i.tof1) > 40.0
    ensures LightningShown(StaticNext(s, TargetIntensity(i)))
  {
  }

  /** Section E: the distance the container moves this frame, from the animation the frame rendered with. */
  function MoveSpeed(rendered: Anim, target: real, delta: real): (v: real)
    ensures rendered != Walking ==> v == 15.0 * delta
    ensures rendered == Walking ==> v == 25.0 * delta + 5.0 * target * delta
  {
    (if rendered == Walking then 25.0 + target * 5.0 else 15.0) * delta
  }

  /** Walking is never slower than standing, and charging makes it faster still. */
  lemma WalkingFaster(target: real, delta: real)
    requires delta > 0.0 && target >= 0.0
    ensures MoveSpeed(Walking, target, delta) > MoveSpeed(Idle, target, delta)
    ensures MoveSpeed(Walking, target, delta) >= MoveSpeed(Walking, 0.0, delta)
  {
  }

  /**
   * The frame that starts a jump still moves at the speed of the animation
   * it was rendered with: a jump started while walking covers the walking
   * distance on that frame.
   */
  lemma JumpFrameKeepsWalkingSpeed(i: Input, delta: real)
    requires i.j2y < -0.5
    ensures Select(Pose(Walking, false), i).anim == Jump
    ensures MoveSpeed(Pose(Walking, false).anim, TargetIntensity(i), delta) ==
            (25.0 + TargetIntensity(i) * 5.0) * delta
  {
  }

  /** `PlayerPikachu`: the state the frame callback reads and writes. */
  class PikachuPlayer {
    var anim: Anim
    var jumping: bool
    var staticIntensity: real
    var yaw: real

    function PoseOf(): Pose
      reads this
    {
      Pose(anim, jumping)
    }

    ghost predicate Valid()
      reads this
    {
      Consistent(PoseOf())
    }

    constructor ()
      ensures Valid() && PoseOf() == Start
      ensures staticIntensity == 0.0 && yaw == 0.0
    {
      anim, jumping, staticIntensity, yaw := Idle, false, 0.0, 0.0;
    }

    /**
     * One `useFrame` call with the shared record `data`. Without the container
     * and the mesh mounted it returns at once. `speed` is the distance the
     * container is moved along its facing; `animSet` says whether
     * `setCurrentAnim` was called.
     */
    method Tick(data: GameData, delta: real, mounted: bool) returns (speed: Option<real>, animSet: bool)
      requires Valid()
      modifies this
      ensures Valid()
      ensures !mounted ==> speed == None && !animSet && unchanged(this)
      ensures mounted ==> PoseOf() == Select(old(PoseOf()), data.Value())
      ensures mounted ==> animSet == AnimSet(old(PoseOf()), data.Value())
      ensures mounted ==> staticIntensity == StaticNext(old(staticIntensity), TargetIntensity(data.Value()))
      ensures mounted ==> yaw == old(yaw) - data.j2x * (5.0 * delta)
      ensures mounted ==> speed == Some(MoveSpeed(old(anim), TargetIntensity(data.Value()), delta))
    {
      if !mounted {
        return None, false;
      }
      var rendered := anim;
      animSet := false;
      if data.j2y < -0.5 && !jumping {
        jumping := true;
        anim := Jump;
        animSet := true;
      }
      if !jumping {
        var next := if Abs(data.j1x) > 0.1 || Abs(data.j1y) > 0.1 then Walking else Idle;
        if rendered != next {
          anim := next;
          animSet := true;
        }
      }
      var target := TargetIntensity(data.Value());
      if Abs(staticIntensity - target) > 0.05 {
        staticIntensity := target;
      }
      var turnSpeed := 5.0 * delta;
      yaw := yaw - data.j2x * turnSpeed;
      speed := Some(MoveSpeed(rendered, target, delta));
    }

    /** The `setTimeout` callback that ends a jump. */
    method JumpEnded()
      modifies this
      ensures Valid() && PoseOf() == Step(old(PoseOf()), Event.JumpEnded)
      ensures staticIntensity == old(staticIntensity) && yaw == old(yaw)
    {
      jumping := false;
      anim := Idle;
    }
  }

  /** One grass instance: its place, its resting scale and its current scale. */
  datatype Blade = Blade(x: real, z: real, baseScale: real, rotation: real, currentScale: real)

  /** A blade is stepped on when its squared distance to the player is below 15. */
  predicate SteppedOn(b: Blade, px: real, pz: real)
  {
    (b.x - px) * (b.x - px) + (b.z - pz) * (b.z - pz) < 15.0
  }

  function TargetScale(b: Blade, px: real, pz: real): (s: real)
    ensures SteppedOn(b, px, pz) ==> s == 0.01
    ensures !SteppedOn(b, px, pz) ==> s == b.baseScale
    ensures BladeOk(b) ==> 0.01 <= s <= b.baseScale
  {
    if SteppedOn(b, px, pz) then 0.01 else b.baseScale
  }

  /** `Math.min(delta, 0.1)`: the easing factor never exceeds 1. */
  function SafeDelta(delta: real): (d: real)
    ensures d <= 0.1
    ensures delta <= 0.1 ==> d == delta
    ensures delta >= 0.1 ==> d == 0.1
  {
    Min(delta, 0.1)
  }

  /** One blade in one frame: ease the current scale towards the target with factor `10 * safeDelta`. */
  function BladeStep(b: Blade, px: real, pz: real, delta: real): (r: Blade)
    requires delta >= 0.0
    ensures r == b.(currentScale := r.currentScale)
    ensures Min(b.currentScale, TargetScale(b, px, pz)) <= r.currentScale
    ensures r.currentScale <= Max(b.currentScale, TargetScale(b, px, pz))
  {
    LerpBetween(b.currentScale, TargetScale(b, px, pz), 10.0 * SafeDelta(delta));
    b.(currentScale := Lerp(b.currentScale, TargetScale(b, px, pz), 10.0 * SafeDelta(delta)))
  }

  /** A blade as generated: resting scale in [1, 1.5], current scale between 0 and the resting scale. */
  predicate BladeOk(b: Blade)
  {
    1.0 <= b.baseScale <= 1.5 && 0.0 <= b.currentScale <= b.baseScale
  }

  /** Every frame keeps a blade between flat and its resting height. */
  lemma BladeStepKeepsOk(b: Blade, px: real, pz: real, delta: real)
    requires BladeOk(b) && delta >= 0.0
    ensures BladeOk(BladeStep(b, px, pz, delta))
  {
  }

  /** A frame of at least 0.1 s snaps the blade to its target: the factor is exactly 1. */
  lemma LongFrameSnaps(b: Blade, px: real, pz: real, delta: real)
    requires delta >= 0.1
    ensures BladeStep(b, px, pz, delta).currentScale == TargetScale(b, px, pz)
  {
  }

  /**
   * Under the player a blade never rises above the higher of its height and
   * 0.01: a blade still growing in from 0 rises only towards 0.01, and one at
   * 0.01 or more never grows. Away from the player it never shrinks.
   */
  lemma SteppedBladeShrinks(b: Blade, px: real, pz: real, delta: real)
    requires BladeOk(b) && delta >= 0.0
    ensures SteppedOn(b, px, pz) ==> BladeStep(b, px, pz, delta).currentScale <= Max(b.currentScale, 0.01)
    ensures SteppedOn(b, px, pz) && b.currentScale >= 0.01 ==> BladeStep(b, px, pz, delta).currentScale <= b.currentScale
    ensures SteppedOn(b, px, pz) && b.currentScale < 0.01 ==> b.currentScale <= BladeStep(b, px, pz, delta).currentScale
    ensures !SteppedOn(b, px, pz) ==> BladeStep(b, px, pz, delta).currentScale >= b.currentScale
  {
  }

  /**
   * `ReactiveGrass`'s frame callback: without the instanced mesh or the
   * player mounted it does nothing; otherwise `forEach` updates every
   * blade's current scale in place.
   */
  method GrassTick(blades: array<Blade>, px: real, pz: real, delta: real, mounted: bool)
    requires delta >= 0.0
    modifies blades
    ensures !mounted ==> blades[..] == old(blades[..])
    ensures mounted ==> forall k :: 0 <= k < blades.Length ==> blades[k] == BladeStep(old(blades[k]), px, pz, delta)
    ensures (forall k :: 0 <= k < blades.Length ==> BladeOk(old(blades[k]))) ==>
            forall k :: 0 <= k < blades.Length ==> BladeOk(blades[k])
  {
    if !mounted {
      return;
    }
    var n := 0;
    while n < blades.Length
      invariant 0 <= n <= blades.Length
      invariant forall k :: 0 <= k < n ==> blades[k] == BladeStep(old(blades[k]), px, pz, delta)
      invariant forall k :: n <= k < blades.Length ==> blades[k] == old(blades[k])
    {
      blades[n] := BladeStep(blades[n], px, pz, delta);
      n := n + 1;
    }
    forall k | 0 <= k < blades.Length && BladeOk(old(blades[k]))
      ensures BladeOk(blades[k])
    {
      BladeStepKeepsOk(old(blades[k]), px, pz, delta);
    }
  }
}
