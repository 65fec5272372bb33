/**
 * The per-frame decisions of the cube character view: how strongly the
 * cube glows, how far it moves, how it leans and how high it bounces.
 */
module CubeCharacterSim {
  import opened Values
  import opened Joystick
  import opened Telemetry
  import opened GameInput

  /** `gameData.e || gameData.tof1 ? 1 : 0`: any non-zero reading counts, `null` and 0 do not. */
  function Pressed(i: Input): (p: real)
    ensures p == 1.0 <==> i.e || Truthy(i.tof1)
    ensures p == 0.0 <==> !(i.e || Truthy(i.tof1))
  {
    if i.e || Truthy(i.tof1) then 1.0 else 0.0
  }

  /** `tof1 > 0 ? tof1 / 400 : 0.5`. */
  function SensorValue(i: Input): (v: real)
    ensures v > 0.0
    ensures ToNumber(i.tof1) > 0.0 ==> v == ToNumber(i.tof1) / 400.0
    ensures ToNumber(i.tof1) <= 0.0 ==> v == 0.5
  {
    if ToNumber(i.tof1) > 0.0 then ToNumber(i.tof1) / 400.0 else 0.5
  }

  /** The emissive intensity the material eases towards. */
  function EmissiveTarget(i: Input): (t: real)
    ensures t >= 0.0
    ensures t == 0.0 <==> !(i.e || Truthy(i.tof1))
    ensures (i.e || Truthy(i.tof1)) && ToNumber(i.tof1) > 0.0 ==> t == ToNumber(i.tof1) / 40.0
    ensures (i.e || Truthy(i.tof1)) && ToNumber(i.tof1) <= 0.0 ==> t == 5.0
  {
    Pressed(i) * (SensorValue(i) * 10.0)
  }

  /** The extra distance a press adds to a frame's movement. */
  function SpeedBonus(i: Input): (b: real)
    ensures b >= 0.0
    ensures b == 0.0 <==> !(i.e || Truthy(i.tof1))
    ensures (i.e || Truthy(i.tof1)) && ToNumber(i.tof1) > 0.0 ==> b == ToNumber(i.tof1) / 320.0
    ensures (i.e || Truthy(i.tof1)) && ToNumber(i.tof1) <= 0.0 ==> b == 0.625
  {
    Pressed(i) * (SensorValue(i) * 1.25)
  }

  /** `24 * delta + targetIntensity`: only the base term is scaled by the frame time. */
  function MoveSpeed(i: Input, delta: real): (v: real)
    ensures v >= 24.0 * delta
    ensures v == 24.0 * delta <==> !(i.e || Truthy(i.tof1))
    ensures (i.e || Truthy(i.tof1)) && ToNumber(i.tof1) > 0.0 ==> v == 24.0 * delta + ToNumber(i.tof1) / 320.0
    ensures (i.e || Truthy(i.tof1)) && ToNumber(i.tof1) <= 0.0 ==> v == 24.0 * delta + 0.625
  {
    24.0 * delta + SpeedBonus(i)
  }

  /** The press bonus is added once per frame, whatever the frame's length. */
  lemma BonusPerFrame(i: Input, d1: real, d2: real)
    ensures MoveSpeed(i, d1) - MoveSpeed(i, d2) == 24.0 * (d1 - d2)
    ensures MoveSpeed(i, 0.0) == SpeedBonus(i)
  {
  }

  /** The sensor bonus is one eighth of the glow target. */
  lemma BonusTracksGlow(i: Input)
    ensures SpeedBonus(i) * 8.0 == EmissiveTarget(i)
  {
  }

  /** A held button with no sensor reading glows at 5 and adds 0.625 to each frame's distance. */
  lemma ButtonWithoutSensor(i: Input)
    requires i.e && ToNumber(i.tof1) <= 0.0
    ensures EmissiveTarget(i) == 5.0 && SpeedBonus(i) == 0.625
  {
  }

  /** `maxLean = 0.2`: leaning forward on `j1y` tips the mesh about x, leaning right on `j1x` about z. */
  const MaxLean: real := 0.2

  /** Pushing forward (`j1y < 0`) tips the mesh forward (negative x), pulling back tips it back. */
  function LeanTargetX(i: Input): (r: real)
    ensures r < 0.0 <==> i.j1y < 0.0
    ensures r == 0.0 <==> i.j1y == 0.0
  {
    i.j1y * MaxLean
  }

  /** Pushing right (`j1x > 0`) tips the mesh to negative z, pushing left to positive z. */
  function LeanTargetZ(i: Input): (r: real)
    ensures r < 0.0 <==> i.j1x > 0.0
    ensures r == 0.0 <==> i.j1x == 0.0
  {
    -i.j1x * MaxLean
  }

  /** With the axes in [-1, 1] the lean targets stay within the maximum lean. */
  lemma LeanTargetsBounded(i: Input)
    requires AxesBounded(i)
    ensures -MaxLean <= LeanTargetX(i) <= MaxLean
    ensures -MaxLean <= LeanTargetZ(i) <= MaxLean
  {
    AxesBoundedFields(i);
  }

  /** Easing towards a target within the maximum lean keeps a lean within it. */
  lemma LeanStaysBounded(lean: real, target: real)
    requires -MaxLean <= lean <= MaxLean && -MaxLean <= target <= MaxLean
    ensures -MaxLean <= Lerp(lean, target, 0.1) <= MaxLean
  {
    LerpBetween(lean, target, 0.1);
  }

  /** `0.6 + |sin(time * (isMoving ? 10 : 2))| * (isMoving ? 0.3 : 0.05)`; the sine of each phase is given. */
  function BounceHeight(moving: bool, sinFast: real, sinSlow: real): (h: real)
    ensures h >= 0.6
    ensures h == 0.6 <==> (if moving then sinFast else sinSlow) == 0.0
  {
    if moving then 0.6 + Abs(sinFast) * 0.3 else 0.6 + Abs(sinSlow) * 0.05
  }

  /** The cube's height stays between 0.6 and 0.9, and at rest never rises above 0.65. */
  lemma BounceBounded(moving: bool, sinFast: real, sinSlow: real)
    requires -1.0 <= sinFast <= 1.0 && -1.0 <= sinSlow <= 1.0
    ensures 0.6 <= BounceHeight(moving, sinFast, sinSlow) <= 0.9
    ensures !moving ==> BounceHeight(moving, sinFast, sinSlow) <= 0.65
  {
  }

  /**
   * A raw 2248 on a frame is outside the exclusive deadzone of the centre
   * 2048 stick and normalises to about 0.122, above the 0.1 threshold, so
   * the cube counts as moving.
   */
  lemma EdgeOfDeadzoneMoves(s: Input)
    ensures Moving(Merge(s, Object(EmptyFrame.(j1x := Num(2248.0))), CubeJoy))
  {
    CubeReferencePoints();
    var f := EmptyFrame.(j1x := Num(2248.0));
    assert Merge(s, Object(f), CubeJoy).j1x == Normalize(Num(2248.0), CubeJoy);
  }

  /** `PlayerCube`: the container's yaw, the material's emissive intensity and the mesh's lean and height. */
  class CubePlayer {
    var yaw: real
    var emissive: real
    var leanX: real
    var leanZ: real
    var height: real

    ghost predicate Valid()
      reads this
    {
      emissive >= 0.0 && -MaxLean <= leanX <= MaxLean && -MaxLean <= leanZ <= MaxLean
    }

    /** The container starts unrotated; three.js materials start at emissive intensity 1. */
    constructor ()
      ensures Valid()
      ensures yaw == 0.0 && emissive == 1.0 && leanX == 0.0 && leanZ == 0.0 && height == 0.0
    {
      yaw, emissive, leanX, leanZ, height := 0.0, 1.0, 0.0, 0.0, 0.0;
    }

    /**
     * One `useFrame` call. Without the container and the mesh mounted it
     * returns at once; the glow is eased only when the material is mounted.
     * `speed` is the distance the container moves along its facing.
     */
    method Tick(data: GameData, delta: real, sinFast: real, sinSlow: real,
                mounted: bool, materialMounted: bool) returns (speed: Option<real>)
      requires Valid() && data.Valid()
      modifies this
      ensures Valid()
      ensures !mounted ==> speed == None && unchanged(this)
      ensures mounted && materialMounted ==> emissive == Lerp(old(emissive), EmissiveTarget(data.Value()), 0.1)
      ensures mounted && !materialMounted ==> emissive == old(emissive)
      ensures mounted ==> yaw == old(yaw) - data.j2x * (3.0 * delta)
      ensures mounted ==> speed == Some(MoveSpeed(data.Value(), delta))
      ensures mounted ==> leanX == Lerp(old(leanX), LeanTargetX(data.Value()), 0.1)
      ensures mounted ==> leanZ == Lerp(old(leanZ), LeanTargetZ(data.Value()), 0.1)
      ensures mounted ==> height == BounceHeight(Moving(data.Value()), sinFast, sinSlow)
      ensures mounted && -1.0 <= sinFast <= 1.0 && -1.0 <= sinSlow <= 1.0 ==> 0.6 <= height <= 0.9
    {
      if !mounted {
        return None;
      }
      var input := data.Value();
      if materialMounted {
        LerpBetween(emissive, EmissiveTarget(input), 0.1);
        emissive := Lerp(emissive, EmissiveTarget(input), 0.1);
      }
      var turnSpeed := 3.0 * delta;
      yaw := yaw - data.j2x * turnSpeed;
      speed := Some(MoveSpeed(input, delta));
      LeanTargetsBounded(input);
      LeanStaysBounded(leanX, LeanTargetX(input));
      LeanStaysBounded(leanZ, LeanTargetZ(input));
      leanX := Lerp(leanX, LeanTargetX(input), 0.1);
      leanZ := Lerp(leanZ, LeanTargetZ(input), 0.1);
      var isMoving := Abs(data.j1x) > 0.1 || Abs(data.j1y) > 0.1;
      height := BounceHeight(isMoving, sinFast, sinSlow);
      if -1.0 <= sinFast <= 1.0 && -1.0 <= sinSlow <= 1.0 {
        BounceBounded(isMoving, sinFast, sinSlow);
      }
    }
  }
}
