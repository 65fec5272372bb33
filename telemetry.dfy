/**
 * One inbound socket frame after `JSON.parse`. Controller frames carry the
 * joystick and sensor fields, presence frames carry the player position and
 * the device's `state`; both shapes travel on the same socket and every field
 * is optional, so one record holds them all.
 */
module Telemetry {
  import opened Values

  datatype Frame = Frame(
    j1x: Sample, j1y: Sample, j2x: Sample, j2y: Sample, tof1: Sample,
    x: Sample, y: Sample, dirX: Sample, dirY: Sample, state: Sample)

  /**
   * The outcome of `JSON.parse(e.data)`. `Malformed`: the parse throws.
   * `NullLiteral`: the text `null` parses, and the first property read
   * (`data.j1x`, `data.x`) then throws a TypeError. Any other JSON value that
   * is not an object reads `undefined` for every field, so it is an `Object`
   * whose fields are all `Undefined`.
   */
  datatype Message = Malformed | NullLiteral | Object(frame: Frame)

  /** A frame in which no field is present. */
  const EmptyFrame: Frame := Frame(Undefined, Undefined, Undefined, Undefined, Undefined,
                                   Undefined, Undefined, Undefined, Undefined, Undefined)
}
