/**
 * The telemetry debug view. Its copy of the joystick normaliser refers to
 * `JOY_CENTER`, `JOY_MAX` and `DEADZONE`, which that file never declares:
 * for `undefined` and `null` the normaliser returns 0 before reaching them,
 * but for any number the subtraction throws a ReferenceError. The message
 * handler's `try` catches it, so the rest of that frame is silently dropped.
 */
module WSConnection {
  import opened Values
  import opened Joystick
  import opened Telemetry
  import opened GameInput
  import opened Connection

  /** The view's `normalizeJoystick`; `None` is the ReferenceError. */
  function NormalizeUnbound(s: Sample): (r: Option<real>)
    ensures r.None? <==> s.Num?
    ensures r.Some? ==> r.value == 0.0
    ensures r.Some? ==> forall cfg: JoyConfig :: r.value == Normalize(s, cfg)
  {
    if s.Undefined? || s.Null? then Some(0.0) else None
  }

  /** How one `onmessage` call ends; every throw is caught and logged. */
  datatype Outcome = Handled | ParseError | ReadError | ReferenceError(at: Axis)

  /** The index of the first axis of `axes` whose field holds a number, or `|axes|` if none does. */
  function FirstNumeric(f: Frame, axes: seq<Axis>): (k: nat)
    ensures k <= |axes|
    ensures forall i :: 0 <= i < k ==> !AxisSample(f, axes[i]).Num?
    ensures k < |axes| ==> AxisSample(f, axes[k]).Num?
    decreases |axes|
  {
    if axes == [] then 0
    else if AxisSample(f, axes[0]).Num? then 0
    else 1 + FirstNumeric(f, axes[1..])
  }

  /** One joystick line of the handler; `None` when its normalisation throws. */
  function Line(s: Input, f: Frame, a: Axis): Option<Input>
  {
    match NormalizeUnbound(AxisSample(f, a))
    case None => None
    case Some(v) => Some(if AxisSample(f, a).Undefined? then s else WithAxis(s, a, v))
  }

  /**
   * The joystick lines of the handler, run in the order of `axes` until one
   * throws. The second component is the axis whose normalisation threw.
   */
  function WriteAxes(s: Input, f: Frame, axes: seq<Axis>): (r: (Input, Option<Axis>))
    ensures r.1 == if FirstNumeric(f, axes) < |axes| then Some(axes[FirstNumeric(f, axes)]) else None
    ensures forall a :: AxisOf(r.0, a) ==
              if a in axes[..FirstNumeric(f, axes)] && AxisSample(f, a).Null? then 0.0 else AxisOf(s, a)
    ensures r.0.tof1 == s.tof1 && r.0.e == s.e
    decreases |axes|
  {
    if axes == [] then (s, None)
    else
      match Line(s, f, axes[0])
      case None => (s, Some(axes[0]))
      case Some(t) =>
        var r := WriteAxes(t, f, axes[1..]);
        assert axes[..FirstNumeric(f, axes)] == [axes[0]] + axes[1..][..FirstNumeric(f, axes[1..])];
        r
  }

  /** The whole handler: parse, the four joystick lines, then the raw `tof1` line. */
  function MergeUnbound(s: Input, m: Message): (r: (Input, Outcome))
    ensures forall a :: AxisOf(r.0, a) == AxisOf(s, a) || AxisOf(r.0, a) == 0.0
    ensures r.0.e == s.e
    ensures AxesBounded(s) ==> AxesBounded(r.0)
  {
    match m
    case Malformed => (s, ParseError)
    case NullLiteral => (s, ReadError)
    case Object(f) =>
      var (t, thrown) := WriteAxes(s, f, WriteOrder);
      if thrown.Some? then (t, ReferenceError(thrown.value))
      else (if f.tof1.Undefined? then t else t.(tof1 := f.tof1), Handled)
  }

  /** The number of fields of `WriteOrder` the handler gets through before it throws. */
  lemma FirstNumericOfWriteOrder(f: Frame)
    ensures FirstNumeric(f, WriteOrder) ==
              if f.j1x.Num? then 0 else if f.j1y.Num? then 1 else if f.j2x.Num? then 2
              else if f.j2y.Num? then 3 else 4
  {
    assert WriteOrder[1..] == [J1y, J2x, J2y];
    assert WriteOrder[1..][1..] == [J2x, J2y];
    assert WriteOrder[1..][1..][1..] == [J2y];
    assert WriteOrder[1..][1..][1..][1..] == [];
  }

  /**
   * A numeric joystick value aborts the frame: the axis it names and every
   * later field, `tof1` included, keep their old values, and only `null`
   * fields before it are written (as 0).
   */
  lemma NumericAxisAbortsFrame(s: Input, f: Frame)
    requires f.j1x.Num? || f.j1y.Num? || f.j2x.Num? || f.j2y.Num?
    ensures MergeUnbound(s, Object(f)).1.ReferenceError?
    ensures MergeUnbound(s, Object(f)).0.tof1 == s.tof1
    ensures MergeUnbound(s, Object(f)).0.e == s.e
    ensures f.j1x.Num? ==> MergeUnbound(s, Object(f)).0 == s
  {
    FirstNumericOfWriteOrder(f);
    var r := MergeUnbound(s, Object(f)).0;
    if f.j1x.Num? {
      assert WriteOrder[..0] == [];
      assert r.j1x == AxisOf(r, J1x) && r.j1y == AxisOf(r, J1y);
      assert r.j2x == AxisOf(r, J2x) && r.j2y == AxisOf(r, J2y);
    }
  }

  /** A `null` joystick value writes 0 without throwing, and the rest of the frame goes on. */
  lemma NullAxisWritesZero(s: Input, v: Reading)
    ensures MergeUnbound(s, Object(EmptyFrame.(j1x := Null, tof1 := v))) == (s.(j1x := 0.0, tof1 := v), Handled)
  {
    var f := EmptyFrame.(j1x := Null, tof1 := v);
    FirstNumericOfWriteOrder(f);
    var r := WriteAxes(s, f, WriteOrder).0;
    assert WriteOrder[..4] == WriteOrder;
    assert r.j1x == AxisOf(r, J1x) && r.j1y == AxisOf(r, J1y);
    assert r.j2x == AxisOf(r, J2x) && r.j2y == AxisOf(r, J2y);
  }

  /** A frame carrying only `tof1` stores it raw and changes nothing else. */
  lemma SensorOnlyFrameUnbound(s: Input, v: Reading)
    ensures MergeUnbound(s, Object(EmptyFrame.(tof1 := v))) == (s.(tof1 := v), Handled)
  {
    var f := EmptyFrame.(tof1 := v);
    FirstNumericOfWriteOrder(f);
    var r := WriteAxes(s, f, WriteOrder).0;
    assert r.j1x == AxisOf(r, J1x) && r.j1y == AxisOf(r, J1y);
    assert r.j2x == AxisOf(r, J2x) && r.j2y == AxisOf(r, J2y);
  }

  function ReplayUnbound(s: Input, ms: seq<Message>): Input
    decreases |ms|
  {
    if ms == [] then s else ReplayUnbound(MergeUnbound(s, ms[0]).0, ms[1..])
  }

  /**
   * Consequence of the undefined constants: starting from the initial record,
   * no sequence of frames ever makes an axis anything but 0, so the view
   * always displays zeros for the four joystick values.
   */
  lemma {:induction false} AxesStayZero(s: Input, ms: seq<Message>)
    requires forall a :: AxisOf(s, a) == 0.0
    ensures forall a :: AxisOf(ReplayUnbound(s, ms), a) == 0.0
    decreases |ms|
  {
    if ms != [] {
      AxesStayZero(MergeUnbound(s, ms[0]).0, ms[1..]);
    }
  }

  /** The handler's joystick lines one at a time, in source order. */
  lemma WriteOrderSteps(s: Input, f: Frame)
    ensures MergeUnbound(s, Object(f)) ==
      match Line(s, f, J1x)
      case None => (s, ReferenceError(J1x))
      case Some(s1) =>
        match Line(s1, f, J1y)
        case None => (s1, ReferenceError(J1y))
        case Some(s2) =>
          match Line(s2, f, J2x)
          case None => (s2, ReferenceError(J2x))
          case Some(s3) =>
            match Line(s3, f, J2y)
            case None => (s3, ReferenceError(J2y))
            case Some(s4) => (if f.tof1.Undefined? then s4 else s4.(tof1 := f.tof1), Handled)
  {
    assert WriteOrder[1..] == [J1y, J2x, J2y];
    assert WriteOrder[1..][1..] == [J2x, J2y];
    assert WriteOrder[1..][1..][1..] == [J2y];
    assert WriteOrder[1..][1..][1..][1..] == [];
  }

  /** The debug view: its status line and its `gameData` ref. */
  class WSConnectionView {
    var status: Status
    const gameData: GameData

    constructor ()
      ensures status == Initializing
      ensures fresh(gameData) && gameData.Valid() && gameData.Value() == Initial
    {
      status := Initializing;
      gameData := new GameData();
    }

    method OnOpen()
      modifies this
      ensures status == After(Opened)
    {
      status := Live;
    }

    method OnClose()
      modifies this
      ensures status == After(Closed)
    {
      status := Disconnected;
    }

    /**
     * One `if (data.jNN !== undefined) gameData.current.jNN = normalizeJoystick(data.jNN)`
     * line; `ok` is false when the normaliser throws, before the assignment.
     */
    method WriteLine(data: Frame, a: Axis) returns (ok: bool)
      modifies gameData
      ensures ok == Line(old(gameData.Value()), data, a).Some?
      ensures ok ==> gameData.Value() == Line(old(gameData.Value()), data, a).value
      ensures !ok ==> gameData.Value() == old(gameData.Value())
    {
      var sample := AxisSample(data, a);
      if !sample.Undefined? {
        var v := NormalizeUnbound(sample);
        if v.None? {
          return false;
        }
        match a {
          case J1x => gameData.j1x := v.value;
          case J1y => gameData.j1y := v.value;
          case J2x => gameData.j2x := v.value;
          case J2y => gameData.j2y := v.value;
        }
      }
      return true;
    }

    /** `socket.onmessage`: the whole body runs inside `try`, so every outcome is caught. */
    method OnMessage(m: Message) returns (outcome: Outcome)
      requires gameData.Valid()
      modifies gameData
      ensures gameData.Valid()
      ensures (gameData.Value(), outcome) == MergeUnbound(old(gameData.Value()), m)
    {
      ghost var expected := MergeUnbound(gameData.Value(), m);
      assert AxesBounded(expected.0);
      if m.Malformed? {
        return ParseError;
      }
      if m.NullLiteral? {
        return ReadError;
      }
      var data := m.frame;
      WriteOrderSteps(gameData.Value(), data);
      var ok := WriteLine(data, J1x);
      if !ok {
        return ReferenceError(J1x);
      }
      ok := WriteLine(data, J1y);
      if !ok {
        return ReferenceError(J1y);
      }
      ok := WriteLine(data, J2x);
      if !ok {
        return ReferenceError(J2x);
      }
      ok := WriteLine(data, J2y);
      if !ok {
        return ReferenceError(J2y);
      }
      if !data.tof1.Undefined? {
        gameData.tof1 := data.tof1;
      }
      outcome := Handled;
    }
  }
}
