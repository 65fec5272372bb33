/**
 * What the map page and the root page keep from presence frames: the
 * player record, overwritten wholesale by every frame that parses, and the
 * `menu` state, set to the device's `state` whenever a frame carries one.
 * Both pages use the same handler body; only the initial `menu` differs.
 */
module Presence {
  import opened Values
  import opened Telemetry

  /** `playerRef.current`: fields are copied from the frame as they are, `undefined` included. */
  datatype PlayerRecord = PlayerRecord(x: Sample, y: Sample, dirX: Sample, dirY: Sample)

  /** `{ x: 2, y: 2, dirX: 1, dirY: 0 }`. */
  const StartPlayer: PlayerRecord := PlayerRecord(Num(2.0), Num(2.0), Num(1.0), Num(0.0))

  /** `{ x: data.x, y: data.y, dirX: data.dirX, dirY: data.dirY }`. */
  function PlayerOf(f: Frame): PlayerRecord
  {
    PlayerRecord(f.x, f.y, f.dirX, f.dirY)
  }

  /**
   * `if (data.state !== undefined) setMenu(prev => prev !== data.state ? data.state : prev)`:
   * the updater leaves an equal value in place, so either way the menu becomes the frame's state.
   */
  function NextMenu(menu: Reading, state: Sample): (r: Reading)
    ensures state.Undefined? ==> r == menu
    ensures !state.Undefined? ==> r == state
  {
    if state.Undefined? then menu
    else if menu != state then state
    else menu
  }

  /** The part of a page's state the socket handler writes. */
  datatype Shown = Shown(player: PlayerRecord, menu: Reading)

  /**
   * One `onmessage` call. A parse failure, and the `null` literal whose
   * `data.x` throws, are caught before any write.
   */
  function Receive(s: Shown, m: Message): (r: Shown)
    ensures !m.Object? ==> r == s
    ensures m.Object? ==> r.player == PlayerOf(m.frame)
    ensures m.Object? ==> r.menu == if m.frame.state.Undefined? then s.menu else m.frame.state
  {
    match m
    case Object(f) => Shown(PlayerOf(f), NextMenu(s.menu, f.state))
    case _ => s
  }

  function ReceiveAll(s: Shown, ms: seq<Message>): Shown
    decreases |ms|
  {
    if ms == [] then s else ReceiveAll(Receive(s, ms[0]), ms[1..])
  }

  /** The most recent frame that parsed, if any. */
  function LastFrame(ms: seq<Message>): Option<Frame>
    decreases |ms|
  {
    if ms == [] then None
    else if ms[|ms| - 1].Object? then Some(ms[|ms| - 1].frame)
    else LastFrame(ms[..|ms| - 1])
  }

  /** The `state` of the most recent frame that parsed and carried one, if any. */
  function LastState(ms: seq<Message>): Option<Reading>
    decreases |ms|
  {
    if ms == [] then None
    else if ms[|ms| - 1].Object? && !ms[|ms| - 1].frame.state.Undefined? then Some(ms[|ms| - 1].frame.state)
    else LastState(ms[..|ms| - 1])
  }

  lemma {:induction false} ReceiveAllSnoc(s: Shown, ms: seq<Message>, m: Message)
    ensures ReceiveAll(s, ms + [m]) == Receive(ReceiveAll(s, ms), m)
    decreases |ms|
  {
    if ms == [] {
      assert ms + [m] == [m];
    } else {
      assert (ms + [m])[1..] == ms[1..] + [m];
      ReceiveAllSnoc(Receive(s, ms[0]), ms[1..], m);
    }
  }

  /**
   * The player record shown is the one from the last frame that parsed,
   * whatever came before it; with no such frame it is the initial record.
   */
  lemma {:induction false} PlayerFromLastFrame(s: Shown, ms: seq<Message>)
    ensures ReceiveAll(s, ms).player == match LastFrame(ms) case None => s.player case Some(f) => PlayerOf(f)
    decreases |ms|
  {
    if ms != [] {
      var init := ms[..|ms| - 1];
      assert ms == init + [ms[|ms| - 1]];
      ReceiveAllSnoc(s, init, ms[|ms| - 1]);
      PlayerFromLastFrame(s, init);
    }
  }

  /** The menu is the state of the last frame that carried one; frames without `state` leave it alone. */
  lemma {:induction false} MenuFromLastState(s: Shown, ms: seq<Message>)
    ensures ReceiveAll(s, ms).menu == match LastState(ms) case None => s.menu case Some(v) => v
    decreases |ms|
  {
    if ms != [] {
      var init := ms[..|ms| - 1];
      assert ms == init + [ms[|ms| - 1]];
      ReceiveAllSnoc(s, init, ms[|ms| - 1]);
      MenuFromLastState(s, init);
    }
  }

  /** A run of frames that all fail to parse changes nothing. */
  lemma UnparsedFramesChangeNothing(s: Shown, ms: seq<Message>)
    requires forall k :: 0 <= k < |ms| ==> !ms[k].Object?
    ensures ReceiveAll(s, ms) == s
  {
    PlayerFromLastFrame(s, ms);
    MenuFromLastState(s, ms);
    NoObjectNoLast(ms);
  }

  lemma {:induction false} NoObjectNoLast(ms: seq<Message>)
    requires forall k :: 0 <= k < |ms| ==> !ms[k].Object?
    ensures LastFrame(ms).None? && LastState(ms).None?
    decreases |ms|
  {
    if ms != [] {
      NoObjectNoLast(ms[..|ms| - 1]);
    }
  }
}
