/**
 * The shared input record `gameData` of the controller views and its two
 * writers: the socket's message handler, which merges the fields present in
 * a frame, and the keyboard handlers, which push an axis to an extreme on
 * key-down and back to rest on key-up. Both writers assign single fields and
 * the last write wins.
 */
module GameInput {
  import opened Values
  import opened Joystick
  import opened Telemetry

  /** The four joystick axes, in the order the message handlers write them. */
  datatype Axis = J1x | J1y | J2x | J2y

  const WriteOrder: seq<Axis> := [J1x, J1y, J2x, J2y]

  /** A snapshot of `gameData`: four normalised axes, the raw sensor reading and the button. */
  datatype Input = Input(j1x: real, j1y: real, j2x: real, j2y: real, tof1: Reading, e: bool)

  /** `{ j1x: 0, j1y: 0, j2x: 0, j2y: 0, tof1: 0, e: false }`. */
  const Initial: Input := Input(0.0, 0.0, 0.0, 0.0, Num(0.0), false)

  function AxisOf(s: Input, a: Axis): real
  {
    match a
    case J1x => s.j1x
    case J1y => s.j1y
    case J2x => s.j2x
    case J2y => s.j2y
  }

  function WithAxis(s: Input, a: Axis, v: real): (r: Input)
    ensures AxisOf(r, a) == v
    ensures forall b :: b != a ==> AxisOf(r, b) == AxisOf(s, b)
    ensures r.tof1 == s.tof1 && r.e == s.e
  {
    match a
    case J1x => s.(j1x := v)
    case J1y => s.(j1y := v)
    case J2x => s.(j2x := v)
    case J2y => s.(j2y := v)
  }

  function AxisSample(f: Frame, a: Axis): Sample
  {
    match a
    case J1x => f.j1x
    case J1y => f.j1y
    case J2x => f.j2x
    case J2y => f.j2y
  }

  /** Every axis lies in [-1, 1]: the range of the normaliser and of the keyboard's extremes. */
  predicate AxesBounded(s: Input)
  {
    forall a :: -1.0 <= AxisOf(s, a) <= 1.0
  }

  /** `AxesBounded` spelled out field by field. */
  lemma AxesBoundedFields(s: Input)
    ensures AxesBounded(s) <==>
              -1.0 <= s.j1x <= 1.0 && -1.0 <= s.j1y <= 1.0 && -1.0 <= s.j2x <= 1.0 && -1.0 <= s.j2y <= 1.0
  {
    if -1.0 <= s.j1x <= 1.0 && -1.0 <= s.j1y <= 1.0 && -1.0 <= s.j2x <= 1.0 && -1.0 <= s.j2y <= 1.0 {
      forall a ensures -1.0 <= AxisOf(s, a) <= 1.0 {
        match a
        case J1x => case J1y => case J2x => case J2y =>
      }
    }
    if AxesBounded(s) {
      assert AxisOf(s, J1x) == s.j1x && AxisOf(s, J1y) == s.j1y;
      assert AxisOf(s, J2x) == s.j2x && AxisOf(s, J2y) == s.j2y;
    }
  }

  lemma InitialBounded()
    ensures AxesBounded(Initial)
  {
    forall a ensures -1.0 <= AxisOf(Initial, a) <= 1.0 {
      match a
      case J1x => case J1y => case J2x => case J2y =>
    }
  }

  /** The walking test shared by both characters: either left-stick axis past 0.1 in magnitude. */
  predicate Moving(s: Input)
  {
    Abs(s.j1x) > 0.1 || Abs(s.j1y) > 0.1
  }

  // ---------------------------------------------------------------------------
  // The socket writer

  /** One `if (data.jNN !== undefined) gameData.jNN = normalizeJoystick(data.jNN)` line. */
  function MergeAxis(prev: real, s: Sample, cfg: JoyConfig): real
  {
    if s.Undefined? then prev else Normalize(s, cfg)
  }

  /**
   * The controller views' `onmessage`: nothing is written when the parse or
   * the first property read throws; otherwise each present joystick field is
   * normalised, a present `tof1` is stored raw, and `e` is never touched.
   */
  function Merge(s: Input, m: Message, cfg: JoyConfig): (r: Input)
    ensures !m.Object? ==> r == s
    ensures r.e == s.e
    ensures forall a :: AxisOf(r, a) != AxisOf(s, a) ==> m.Object? && !AxisSample(m.frame, a).Undefined?
    ensures forall a :: m.Object? && !AxisSample(m.frame, a).Undefined? ==>
              AxisOf(r, a) == Normalize(AxisSample(m.frame, a), cfg)
    ensures r.tof1 == if m.Object? && !m.frame.tof1.Undefined? then m.frame.tof1 else s.tof1
    ensures AxesBounded(s) ==> AxesBounded(r)
  {
    if !m.Object? then s
    else
      var f := m.frame;
      MergedAxes(s, f, cfg);
      MergeFields(s, f, cfg)
  }

  function MergeFields(s: Input, f: Frame, cfg: JoyConfig): Input
  {
    Input(MergeAxis(s.j1x, f.j1x, cfg), MergeAxis(s.j1y, f.j1y, cfg),
          MergeAxis(s.j2x, f.j2x, cfg), MergeAxis(s.j2y, f.j2y, cfg),
          if f.tof1.Undefined? then s.tof1 else f.tof1, s.e)
  }

  lemma MergedAxes(s: Input, f: Frame, cfg: JoyConfig)
    ensures forall a :: AxisOf(MergeFields(s, f, cfg), a) == MergeAxis(AxisOf(s, a), AxisSample(f, a), cfg)
  {
    forall a ensures AxisOf(MergeFields(s, f, cfg), a) == MergeAxis(AxisOf(s, a), AxisSample(f, a), cfg) {
      match a
      case J1x => case J1y => case J2x => case J2y =>
    }
  }

  /** Feeding the same frame twice changes nothing the second time. */
  lemma MergeIdempotent(s: Input, m: Message, cfg: JoyConfig)
    ensures Merge(Merge(s, m, cfg), m, cfg) == Merge(s, m, cfg)
  {
    var once := Merge(s, m, cfg);
    var twice := Merge(once, m, cfg);
    forall a ensures AxisOf(twice, a) == AxisOf(once, a) {
    }
    assert twice.j1x == AxisOf(twice, J1x) == AxisOf(once, J1x) == once.j1x;
    assert twice.j1y == AxisOf(twice, J1y) == AxisOf(once, J1y) == once.j1y;
    assert twice.j2x == AxisOf(twice, J2x) == AxisOf(once, J2x) == once.j2x;
    assert twice.j2y == AxisOf(twice, J2y) == AxisOf(once, J2y) == once.j2y;
  }

  /** A frame carrying only `tof1` stores it raw and leaves every other field as it was. */
  lemma SensorOnlyFrame(s: Input, v: Reading, cfg: JoyConfig)
    ensures Merge(s, Object(EmptyFrame.(tof1 := v)), cfg) == s.(tof1 := v)
  {
    var r := Merge(s, Object(EmptyFrame.(tof1 := v)), cfg);
    assert r.j1x == AxisOf(r, J1x) && r.j1y == AxisOf(r, J1y);
    assert r.j2x == AxisOf(r, J2x) && r.j2y == AxisOf(r, J2y);
  }

  // ---------------------------------------------------------------------------
  // The keyboard writer

  /** The two key layouts: the Pikachu view maps both letter cases and all four arrows, the cube view does not. */
  datatype Keymap = PikachuKeys | CubeKeys

  /** The single assignment a key handler performs. */
  datatype KeyWrite = SetAxis(axis: Axis, value: real) | SetButton(pressed: bool)

  /** What the `keydown` handler writes for `key`, if anything. */
  function DownWrite(km: Keymap, key: string): (r: Option<KeyWrite>)
    ensures r.Some? ==> Extreme(r.value)
    ensures km == CubeKeys && r.Some? && r.value.SetAxis? ==> r.value.axis != J2y
  {
    match km
    case PikachuKeys =>
      if key == "w" || key == "W" then Some(SetAxis(J1y, -1.0))
      else if key == "s" || key == "S" then Some(SetAxis(J1y, 1.0))
      else if key == "a" || key == "A" then Some(SetAxis(J1x, -1.0))
      else if key == "d" || key == "D" then Some(SetAxis(J1x, 1.0))
      else if key == "e" || key == "E" then Some(SetButton(true))
      else if key == "ArrowLeft" then Some(SetAxis(J2x, -1.0))
      else if key == "ArrowRight" then Some(SetAxis(J2x, 1.0))
      else if key == "ArrowUp" then Some(SetAxis(J2y, -1.0))
      else if key == "ArrowDown" then Some(SetAxis(J2y, 1.0))
      else None
    case CubeKeys =>
      if key == "w" then Some(SetAxis(J1y, -1.0))
      else if key == "s" then Some(SetAxis(J1y, 1.0))
      else if key == "a" then Some(SetAxis(J1x, -1.0))
      else if key == "d" then Some(SetAxis(J1x, 1.0))
      else if key == "e" || key == "E" then Some(SetButton(true))
      else if key == "ArrowLeft" then Some(SetAxis(J2x, -1.0))
      else if key == "ArrowRight" then Some(SetAxis(J2x, 1.0))
      else None
  }

  /** What the `keyup` handler writes for `key`, if anything. */
  function UpWrite(km: Keymap, key: string): (r: Option<KeyWrite>)
    ensures r.Some? ==> AtRest(r.value)
    ensures km == CubeKeys && r.Some? && r.value.SetAxis? ==> r.value.axis != J2y
  {
    match km
    case PikachuKeys =>
      if key in ["w", "s"] || key in ["W", "S"] then Some(SetAxis(J1y, 0.0))
      else if key in ["a", "d"] || key in ["A", "D"] then Some(SetAxis(J1x, 0.0))
      else if key == "e" || key == "E" then Some(SetButton(false))
      else if key in ["ArrowLeft", "ArrowRight"] then Some(SetAxis(J2x, 0.0))
      else if key in ["ArrowUp", "ArrowDown"] then Some(SetAxis(J2y, 0.0))
      else None
    case CubeKeys =>
      if key in ["w", "s"] then Some(SetAxis(J1y, 0.0))
      else if key in ["a", "d"] then Some(SetAxis(J1x, 0.0))
      else if key == "e" || key == "E" then Some(SetButton(false))
      else if key in ["ArrowLeft", "ArrowRight"] then Some(SetAxis(J2x, 0.0))
      else None
  }

  /** Performs the handler's assignment, if any; every other field keeps its value. */
  function ApplyWrite(s: Input, w: Option<KeyWrite>): (r: Input)
    ensures w.None? ==> r == s
    ensures w.Some? && w.value.SetButton? ==> r == s.(e := w.value.pressed)
    ensures w.Some? && w.value.SetAxis? ==> r == WithAxis(s, w.value.axis, w.value.value)
    ensures w.Some? && w.value.SetAxis? ==> AxisOf(r, w.value.axis) == w.value.value
    ensures forall a :: (w.None? || w.value.SetButton? || w.value.axis != a) ==> AxisOf(r, a) == AxisOf(s, a)
    ensures r.tof1 == s.tof1
    ensures r.e == if w.Some? && w.value.SetButton? then w.value.pressed else s.e
  {
    match w
    case None => s
    case Some(SetButton(b)) => s.(e := b)
    case Some(SetAxis(a, v)) => WithAxis(s, a, v)
  }

  /** Key-down drives an axis to an extreme or presses the button; key-up returns it to rest. */
  predicate Extreme(w: KeyWrite)
  {
    match w
    case SetAxis(_, v) => v == 1.0 || v == -1.0
    case SetButton(b) => b
  }

  predicate AtRest(w: KeyWrite)
  {
    match w
    case SetAxis(_, v) => v == 0.0
    case SetButton(b) => !b
  }

  predicate SameField(w1: KeyWrite, w2: KeyWrite)
  {
    (w1.SetAxis? && w2.SetAxis? && w1.axis == w2.axis) || (w1.SetButton? && w2.SetButton?)
  }

  /**
   * The key-up handler reacts to exactly the keys the key-down handler reacts
   * to, and resets the very field that key-down drove to its extreme.
   */
  lemma UpMirrorsDown(km: Keymap, key: string)
    ensures DownWrite(km, key).Some? <==> UpWrite(km, key).Some?
    ensures DownWrite(km, key).Some? ==>
              Extreme(DownWrite(km, key).value) && AtRest(UpWrite(km, key).value) &&
              SameField(DownWrite(km, key).value, UpWrite(km, key).value)
  {
  }

  /** The Pikachu view maps both letter cases and all four arrows. */
  lemma PikachuMappedKeys(key: string)
    ensures DownWrite(PikachuKeys, key).Some? <==>
              key in {"w", "W", "s", "S", "a", "A", "d", "D", "e", "E",
                      "ArrowLeft", "ArrowRight", "ArrowUp", "ArrowDown"}
  {
  }

  /** The cube view maps only lower-case w/s/a/d, both cases of e, and the horizontal arrows. */
  lemma CubeMappedKeys(key: string)
    ensures DownWrite(CubeKeys, key).Some? <==>
              key in {"w", "s", "a", "d", "e", "E", "ArrowLeft", "ArrowRight"}
  {
  }

  /**
   * Releasing any key of an axis zeroes the whole axis, whichever direction
   * is still held: pressing W, then pressing and releasing S, leaves j1y at 0.
   */
  lemma ReleaseZeroesWholeAxis(s: Input)
    ensures ApplyWrite(ApplyWrite(ApplyWrite(s, DownWrite(PikachuKeys, "w")),
                                  DownWrite(PikachuKeys, "S")),
                       UpWrite(PikachuKeys, "S")).j1y == 0.0
    ensures ApplyWrite(ApplyWrite(s, DownWrite(PikachuKeys, "w")), UpWrite(PikachuKeys, "s")).j1y == 0.0
    ensures ApplyWrite(ApplyWrite(s, DownWrite(CubeKeys, "a")), UpWrite(CubeKeys, "d")).j1x == 0.0
  {
  }

  /** In the cube view the vertical arrows change nothing, on either edge. */
  lemma CubeIgnoresVerticalArrows(s: Input)
    ensures ApplyWrite(s, DownWrite(CubeKeys, "ArrowUp")) == s
    ensures ApplyWrite(s, DownWrite(CubeKeys, "ArrowDown")) == s
    ensures ApplyWrite(s, UpWrite(CubeKeys, "ArrowUp")) == s
    ensures ApplyWrite(s, UpWrite(CubeKeys, "ArrowDown")) == s
  {
  }

  /** Neither key handler can push an axis out of [-1, 1]. */
  lemma KeyWritesKeepBounds(s: Input, km: Keymap, key: string)
    requires AxesBounded(s)
    ensures AxesBounded(ApplyWrite(s, DownWrite(km, key)))
    ensures AxesBounded(ApplyWrite(s, UpWrite(km, key)))
  {
    WriteKeepsBounds(s, DownWrite(km, key));
    WriteKeepsBounds(s, UpWrite(km, key));
  }

  lemma WriteKeepsBounds(s: Input, w: Option<KeyWrite>)
    requires AxesBounded(s)
    requires w.Some? && w.value.SetAxis? ==> -1.0 <= w.value.value <= 1.0
    ensures AxesBounded(ApplyWrite(s, w))
  {
    if w.Some? && w.value.SetButton? {
      var r := ApplyWrite(s, w);
      forall b ensures AxisOf(r, b) == AxisOf(s, b) {
        match b
        case J1x => case J1y => case J2x => case J2y =>
      }
    } else if w.Some? {
      var r := ApplyWrite(s, w);
      forall b ensures -1.0 <= AxisOf(r, b) <= 1.0 {
        if b != w.value.axis {
          assert AxisOf(r, b) == AxisOf(s, b);
        }
      }
    }
  }

  // ---------------------------------------------------------------------------
  // Interleaved writers

  /** The events that write `gameData`: a socket frame, a key press, a key release. */
  datatype InputEvent = Net(m: Message) | Down(key: string) | Up(key: string)

  function Apply(s: Input, ev: InputEvent, cfg: JoyConfig, km: Keymap): Input
  {
    match ev
    case Net(m) => Merge(s, m, cfg)
    case Down(k) => ApplyWrite(s, DownWrite(km, k))
    case Up(k) => ApplyWrite(s, UpWrite(km, k))
  }

  /** The record after handling `evs` in arrival order. */
  function Replay(s: Input, evs: seq<InputEvent>, cfg: JoyConfig, km: Keymap): Input
    decreases |evs|
  {
    if evs == [] then s else Replay(Apply(s, evs[0], cfg, km), evs[1..], cfg, km)
  }

  lemma {:induction false} ReplaySnoc(s: Input, evs: seq<InputEvent>, ev: InputEvent, cfg: JoyConfig, km: Keymap)
    ensures Replay(s, evs + [ev], cfg, km) == Apply(Replay(s, evs, cfg, km), ev, cfg, km)
    decreases |evs|
  {
    if evs != [] {
      assert (evs + [ev])[1..] == evs[1..] + [ev];
      ReplaySnoc(Apply(s, evs[0], cfg, km), evs[1..], ev, cfg, km);
    }
  }

  /** However socket frames and key events interleave, every axis stays in [-1, 1]. */
  lemma {:induction false} ReplayKeepsAxesBounded(s: Input, evs: seq<InputEvent>, cfg: JoyConfig, km: Keymap)
    requires AxesBounded(s)
    ensures AxesBounded(Replay(s, evs, cfg, km))
    decreases |evs|
  {
    if evs != [] {
      var t := Apply(s, evs[0], cfg, km);
      match evs[0] {
        case Net(m) =>
        case Down(k) => KeyWritesKeepBounds(s, km, k);
        case Up(k) => KeyWritesKeepBounds(s, km, k);
      }
      ReplayKeepsAxesBounded(t, evs[1..], cfg, km);
    }
  }

  /** The button is written only by the keyboard: no run of socket frames changes `e`. */
  lemma {:induction false} NetworkNeverWritesButton(s: Input, evs: seq<InputEvent>, cfg: JoyConfig, km: Keymap)
    requires forall i :: 0 <= i < |evs| ==> evs[i].Net?
    ensures Replay(s, evs, cfg, km).e == s.e
    decreases |evs|
  {
    if evs != [] {
      NetworkNeverWritesButton(Apply(s, evs[0], cfg, km), evs[1..], cfg, km);
    }
  }

  /**
   * Last write wins: whatever came before, a key release leaves its axis at
   * rest, and a frame carrying a joystick field leaves that axis at the
   * normalised value.
   */
  lemma LastWriteWins(s: Input, evs: seq<InputEvent>, f: Frame, a: Axis, cfg: JoyConfig)
    requires !AxisSample(f, a).Undefined?
    ensures AxisOf(Replay(s, evs + [Net(Object(f))], cfg, PikachuKeys), a) == Normalize(AxisSample(f, a), cfg)
    ensures Replay(s, evs + [Up("W")], cfg, PikachuKeys).j1y == 0.0
  {
    ReplaySnoc(s, evs, Net(Object(f)), cfg, PikachuKeys);
    ReplaySnoc(s, evs, Up("W"), cfg, PikachuKeys);
  }

  // ---------------------------------------------------------------------------
  // The mutable record

  /** `gameData`, written in place by the socket and keyboard handlers and read by every frame. */
  class GameData {
    var j1x: real
    var j1y: real
    var j2x: real
    var j2y: real
    var tof1: Reading
    var e: bool

    function Value(): Input
      reads this
    {
      Input(j1x, j1y, j2x, j2y, tof1, e)
    }

    ghost predicate Valid()
      reads this
    {
      AxesBounded(Value())
    }

    constructor ()
      ensures Valid() && Value() == Initial
    {
      j1x, j1y, j2x, j2y, tof1, e := 0.0, 0.0, 0.0, 0.0, Num(0.0), false;
      InitialBounded();
    }

    /**
     * `socket.onmessage` of the controller views. `parsed` is false when the
     * handler throws before its first assignment.
     */
    method MergeFrame(m: Message, cfg: JoyConfig) returns (parsed: bool)
      requires Valid()
      modifies this
      ensures Valid()
      ensures Value() == Merge(old(Value()), m, cfg)
      ensures parsed == m.Object?
    {
      ghost var before := Value();
      if !m.Object? {
        return false;
      }
      var data := m.frame;
      if !data.j1x.Undefined? { j1x := Normalize(data.j1x, cfg); }
      if !data.j1y.Undefined? { j1y := Normalize(data.j1y, cfg); }
      if !data.j2x.Undefined? { j2x := Normalize(data.j2x, cfg); }
      if !data.j2y.Undefined? { j2y := Normalize(data.j2y, cfg); }
      if !data.tof1.Undefined? { tof1 := data.tof1; }
      assert Value() == Merge(before, m, cfg);
      parsed := true;
    }

    /** The `keydown` listener of the view using `km`. */
    method KeyDown(key: string, km: Keymap)
      requires Valid()
      modifies this
      ensures Valid()
      ensures Value() == ApplyWrite(old(Value()), DownWrite(km, key))
    {
      KeyWritesKeepBounds(Value(), km, key);
      if km == PikachuKeys {
        if key == "w" || key == "W" { j1y := -1.0; }
        if key == "s" || key == "S" { j1y := 1.0; }
        if key == "a" || key == "A" { j1x := -1.0; }
        if key == "d" || key == "D" { j1x := 1.0; }
        if key == "e" || key == "E" { e := true; }
        if key == "ArrowLeft" { j2x := -1.0; }
        if key == "ArrowRight" { j2x := 1.0; }
        if key == "ArrowUp" { j2y := -1.0; }
        if key == "ArrowDown" { j2y := 1.0; }
      } else {
        if key == "w" { j1y := -1.0; }
        if key == "s" { j1y := 1.0; }
        if key == "a" { j1x := -1.0; }
        if key == "d" { j1x := 1.0; }
        if key == "e" || key == "E" { e := true; }
        if key == "ArrowLeft" { j2x := -1.0; }
        if key == "ArrowRight" { j2x := 1.0; }
      }
    }

    /** The `keyup` listener of the view using `km`. */
    method KeyUp(key: string, km: Keymap)
      requires Valid()
      modifies this
      ensures Valid()
      ensures Value() == ApplyWrite(old(Value()), UpWrite(km, key))
    {
      KeyWritesKeepBounds(Value(), km, key);
      if km == PikachuKeys {
        if key in ["w", "s"] { j1y := 0.0; }
        if key in ["W", "S"] { j1y := 0.0; }
        if key in ["a", "d"] { j1x := 0.0; }
        if key in ["A", "D"] { j1x := 0.0; }
        if key == "e" || key == "E" { e := false; }
        if key in ["ArrowLeft", "ArrowRight"] { j2x := 0.0; }
        if key in ["ArrowUp", "ArrowDown"] { j2y := 0.0; }
      } else {
        if key in ["w", "s"] { j1y := 0.0; }
        if key in ["a", "d"] { j1x := 0.0; }
        if key == "e" || key == "E" { e := false; }
        if key in ["ArrowLeft", "ArrowRight"] { j2x := 0.0; }
      }
    }
  }
}
